/** The per-user conversation memory record: the message history and the
    creditor's clients and collections, keyed by id, and the text blocks the
    agent's prompt is given for them. */
module Schema {
  import opened Text
  import opened Dicts
  import opened ClientModel
  import opened CollectionModel

  /** One history entry: `{"role", "content", "timestamp"}`. */
  datatype ChatEntry = ChatEntry(role: string, content: string, timestamp: string)

  datatype MemorySchema = MemorySchema(
    messages: seq<ChatEntry>,
    collections: Dict<string, Collection>,
    clients: Dict<string, Client>)

  /** `MemorySchema()`: no messages, no collections, no clients. */
  const EmptySchema := MemorySchema([], [], [])

  /** The prompt block of one client. */
  function ClientBlock(c: Client): (r: string)
    ensures StartsWith(r, "\n        ID del cliente: " + c.id)
  {
    var head := "\n        ID del cliente: " + c.id;
    var tail := "\n        RAW ID: " + OptToString(c.rawId)
      + "\n        Nombre completo: " + c.name + " " + OptToString(c.surname)
      + "\n        Teléfono: " + c.phoneNumber
      + "\n        Email: " + OptToString(c.email)
      + "\n        ";
    var r := head + tail;
    assert r[..|head|] == head;
    r
  }

  /** The prompt block of one collection. */
  function CollectionBlock(c: Collection): (r: string)
    ensures StartsWith(r, "\n        Id de colección: " + c.id)
  {
    var head := "\n        Id de colección: " + c.id;
    var tail := "\n        Celular del cliente: " + c.clientCellphone
      + "\n        Nombre completo del cliente: " + c.clientFullName
      + "\n        Nombre completo del acreedor: " + c.acreetorFullName
      + "\n        Celular del acreedor: " + c.acreetorCellphone
      + "\n        Estado: " + c.status
      + "\n        Descripción: " + c.description
      + "\n        Moneda: " + c.currency
      + "\n        Fecha de cobro: " + c.collectionDate
      + "\n        Fecha de pago: " + OptToString(c.paymentDate)
      + "\n        Monto: " + c.amount.repr
      + "\n        Frecuencia de cobro: " + c.frequencyPayment
      + "\n        Numero de cuota: " + OptIntToString(c.quotaNumber)
      + "\n        Total de cuotas: " + OptIntToString(c.totalQuotas)
      + "\n        ";
    var r := head + tail;
    assert r[..|head|] == head;
    r
  }

  /** `str()` of an `Optional[int]`. */
  function OptIntToString(o: Option<int>): string {
    match o
    case None => "None"
    case Some(i) => IntToString(i)
  }

  /** One block per entry, in dict order. */
  function Blocks<V>(d: seq<(string, V)>, block: V -> string): (bs: seq<string>)
    ensures |bs| == |d|
    ensures forall i :: 0 <= i < |d| ==> bs[i] == block(d[i].1)
  {
    seq(|d|, i requires 0 <= i < |d| => block(d[i].1))
  }

  /** An entry added at the end adds its block at the end. */
  lemma BlocksSnoc<V>(d: seq<(string, V)>, k: string, v: V, block: V -> string)
    ensures Blocks(d + [(k, v)], block) == Blocks(d, block) + [block(v)]
  {
  }

  function ClientBlocks(clients: Dict<string, Client>): (bs: seq<string>)
    ensures |bs| == |clients|
    ensures forall i :: 0 <= i < |clients| ==> bs[i] == ClientBlock(clients[i].1)
  {
    Blocks(clients, ClientBlock)
  }

  function CollectionBlocks(collections: Dict<string, Collection>): (bs: seq<string>)
    ensures |bs| == |collections|
    ensures forall i :: 0 <= i < |collections| ==> bs[i] == CollectionBlock(collections[i].1)
  {
    Blocks(collections, CollectionBlock)
  }

  /** Blocks none of which is empty, joined by newlines: empty exactly when
      there are none, and starting with the first. */
  lemma NonEmptyLines(bs: seq<string>)
    requires forall i :: 0 <= i < |bs| ==> bs[i] != []
    ensures Join(bs, "\n") == [] <==> bs == []
    ensures bs != [] ==> StartsWith(Join(bs, "\n"), bs[0])
  {
    JoinEmpty(bs, "\n");
    if bs != [] {
      JoinStartsWithFirst(bs, "\n");
    }
  }

  /** `get_clients_in_text()`: the client blocks, in dict order, joined by
      newlines; empty exactly when there are no clients. */
  function ClientsText(s: MemorySchema): (t: string)
    ensures t == [] <==> s.clients == []
    ensures s.clients != [] ==> StartsWith(t, ClientBlock(s.clients[0].1))
  {
    var bs := ClientBlocks(s.clients);
    assert forall i :: 0 <= i < |bs| ==> |bs[i]| >= |"\n        ID del cliente: "|;
    NonEmptyLines(bs);
    Join(bs, "\n")
  }

  /** `get_collections_in_text()`: the collection blocks, in dict order,
      joined by newlines; empty exactly when there are no collections. */
  function CollectionsText(s: MemorySchema): (t: string)
    ensures t == [] <==> s.collections == []
    ensures s.collections != [] ==> StartsWith(t, CollectionBlock(s.collections[0].1))
  {
    var bs := CollectionBlocks(s.collections);
    assert forall i :: 0 <= i < |bs| ==> |bs[i]| >= |"\n        Id de colección: "|;
    NonEmptyLines(bs);
    Join(bs, "\n")
  }

  /** A client added under a new key adds one block after the others. */
  lemma ClientsTextAppend(s: MemorySchema, k: string, c: Client)
    requires s.clients != [] && !Has(s.clients, k)
    ensures ClientsText(s.(clients := Put(s.clients, k, c)))
            == ClientsText(s) + "\n" + ClientBlock(c)
  {
    var d := Put(s.clients, k, c);
    assert d == s.clients + [(k, c)];
    BlocksSnoc(s.clients, k, c, ClientBlock);
    JoinSnoc(ClientBlocks(s.clients), ClientBlock(c), "\n");
  }

  /** A collection added under a new key adds one block after the others. */
  lemma CollectionsTextAppend(s: MemorySchema, k: string, c: Collection)
    requires s.collections != [] && !Has(s.collections, k)
    ensures CollectionsText(s.(collections := Put(s.collections, k, c)))
            == CollectionsText(s) + "\n" + CollectionBlock(c)
  {
    var d := Put(s.collections, k, c);
    assert d == s.collections + [(k, c)];
    BlocksSnoc(s.collections, k, c, CollectionBlock);
    JoinSnoc(CollectionBlocks(s.collections), CollectionBlock(c), "\n");
  }
}
