/** `ClientService.add_clients`: a batch of client records from the creditor's
    platform is checked as a whole, keyed by full phone number, and written
    into the creditor's conversation memory; stored collections of a client
    already known by its raw id get its new name and phone. */
module ClientSync {
  import opened Text
  import opened Dicts
  import opened Values
  import opened ClientModel
  import opened CollectionModel
  import opened Schema
  import opened KeyValue
  import opened Memory
  import opened Batches

  const Required: seq<string> :=
    ["userPhoneNumber", "prefixPhone", "phoneNumber", "name", "surname",
     "codePhone", "email", "id", "userId"]

  /** `f'{client["prefixPhone"]}{client["phoneNumber"]}'`. */
  function BatchKey(rec: Fields): string
    requires Complete(Required, rec)
  {
    Str(Get(rec, "prefixPhone").value) + Str(Get(rec, "phoneNumber").value)
  }

  /** The dict a complete record is turned into before `Client(**…)`. */
  function BatchEntry(rec: Fields): (e: Fields)
    requires Complete(Required, rec)
    ensures Keys(e) == ClientModel.FieldNames
    ensures Get(e, "id") == Some(VStr(BatchKey(rec)))
    ensures Get(e, "name") == Get(rec, "name")
    ensures Get(e, "surname") == Get(rec, "surname")
    ensures Get(e, "code_phone") == Get(rec, "codePhone")
    ensures Get(e, "prefix_phone") == Get(rec, "prefixPhone")
    ensures Get(e, "phone_number") == Get(rec, "phoneNumber")
    ensures Get(e, "email") == Get(rec, "email")
    ensures Get(e, "creditor_id") == Get(rec, "userId")
    ensures Get(e, "raw_id") == Get(rec, "id")
  {
    ClientModel.FieldNamesDistinct();
    var vs := Lookup(rec, Required);
    var e := Zip(ClientModel.FieldNames,
      [VStr(BatchKey(rec)), vs[3], vs[4], vs[5], vs[1], vs[2], vs[6], vs[8], vs[7]]);
    GetAt(e, 0); GetAt(e, 1); GetAt(e, 2); GetAt(e, 3); GetAt(e, 4);
    GetAt(e, 5); GetAt(e, 6); GetAt(e, 7); GetAt(e, 8);
    e
  }

  /** A batch client that validates is keyed by its own id, which is its full
      phone number, and carries the record's `id` as its raw id. */
  lemma BatchClient(rec: Fields)
    requires Complete(Required, rec)
    ensures var c := ClientModel.FromFields(BatchEntry(rec));
            c.Some? ==> c.value.id == BatchKey(rec) && BatchKey(rec) == FullPhoneNumber(c.value)
                        && OptStrValue(c.value.rawId) == Get(rec, "id").value
  {
    BatchEntryPhone(rec);
    ClientModel.FromFieldsPhone(BatchEntry(rec));
    BatchClientRawId(rec);
  }

  /** The batch key is the entry's prefix followed by its number. */
  lemma BatchEntryPhone(rec: Fields)
    requires Complete(Required, rec)
    ensures Has(rec, "prefixPhone") && Has(rec, "phoneNumber")
    ensures var e := BatchEntry(rec);
            Has(e, "prefix_phone") && BatchKey(rec) == Str(Get(e, "prefix_phone").value) + Str(Get(e, "phone_number").value)
  {
    assert Has(rec, "prefixPhone") && Has(rec, "phoneNumber");
  }

  lemma BatchClientRawId(rec: Fields)
    requires Complete(Required, rec)
    ensures var c := ClientModel.FromFields(BatchEntry(rec));
            c.Some? ==> OptStrValue(c.value.rawId) == Get(rec, "id").value
  {
    var e := BatchEntry(rec);
    var c := ClientModel.FromFields(e);
    if c.Some? {
      assert Has(rec, "id");
      assert Get(e, "raw_id") == Some(OptStrValue(c.value.rawId));
    }
  }

  /** The (key, entry) pairs of the complete records, in input order. */
  function Pairs(data: seq<Fields>): (ps: seq<(string, Fields)>)
    ensures |ps| <= |data|
  {
    if data == [] then []
    else
      var n := |data| - 1;
      if Complete(Required, data[n]) then Pairs(data[..n]) + [(BatchKey(data[n]), BatchEntry(data[n]))]
      else Pairs(data[..n])
  }

  /** The `clients` dict the validation loop builds. */
  function Batch(data: seq<Fields>): (b: Dict<string, Fields>)
    ensures |b| <= |data|
  {
    FromPairs(Pairs(data))
  }

  /** A record whose key repeats an earlier one replaces it. */
  lemma BatchLastWins(data: seq<Fields>, k: string)
    ensures Get(Batch(data), k) == LastWith(Pairs(data), k)
  {
    FromPairsLastWins(Pairs(data), k);
  }

  /** A (key, entry) pair whose entry has the key as its `id` field. */
  predicate Keyed(p: (string, Fields)) {
    Get(p.1, "id") == Some(VStr(p.0))
  }

  /** Every pair built from a complete record is keyed. */
  lemma {:induction false} PairsKeyed(data: seq<Fields>)
    ensures forall p :: p in Pairs(data) ==> Keyed(p)
  {
    if data != [] {
      var n := |data| - 1;
      PairsKeyed(data[..n]);
      if Complete(Required, data[n]) {
        assert Keyed((BatchKey(data[n]), BatchEntry(data[n])));
      }
    }
  }

  /** Every entry of the batch has its own key as its `id` field. */
  lemma BatchEntriesKeyed(data: seq<Fields>)
    ensures forall i :: 0 <= i < |Batch(data)| ==> Get(Batch(data)[i].1, "id") == Some(VStr(Batch(data)[i].0))
  {
    PairsKeyed(data);
    FromPairsAll(Pairs(data), Keyed);
    var b := Batch(data);
    assert forall i :: 0 <= i < |b| ==> b[i] in b;
  }

  /** `update_client_in_collection` on one collection: a collection of the
      client's raw id takes its full phone number and full name. */
  function Retag(col: Collection, c: Client): (r: Collection)
    ensures r.clientId == col.clientId
    ensures c.rawId == Some(col.clientId) ==> r.clientCellphone == FullPhoneNumber(c) && r.clientFullName == FullName(c)
    ensures r.(clientCellphone := col.clientCellphone, clientFullName := col.clientFullName) == col
    ensures c.rawId != Some(col.clientId) ==> r == col
  {
    if c.rawId == Some(col.clientId) then
      col.(clientCellphone := FullPhoneNumber(c), clientFullName := FullName(c))
    else col
  }

  /** Every stored collection after `update_client_in_collection`. */
  function RetagAll(d: Dict<string, Collection>, c: Client): (r: Dict<string, Collection>)
    ensures Keys(r) == Keys(d)
    ensures forall i :: 0 <= i < |d| ==> r[i] == (d[i].0, Retag(d[i].1, c))
  {
    MapValues(d, (col: Collection) => Retag(col, c))
  }

  /** Updating the collections twice for the same client changes nothing more. */
  lemma RetagAllIdempotent(d: Dict<string, Collection>, c: Client)
    ensures RetagAll(RetagAll(d, c), c) == RetagAll(d, c)
  {
    var r := RetagAll(d, c);
    assert forall i :: 0 <= i < |r| ==> Retag(r[i].1, c) == r[i].1;
  }

  /** Some stored client has this raw id. */
  predicate HasRawId(d: Dict<string, Client>, rawId: Option<string>) {
    exists i :: 0 <= i < |d| && d[i].1.rawId == rawId
  }

  /** One pass of the client loop: collections are updated when a stored
      client shares the raw id, then the client is added. */
  function AddOne(s: MemorySchema, c: Client): (r: MemorySchema)
    ensures Get(r.clients, c.id) == Some(c) && r.messages == s.messages
    // the collections are retagged only when a stored client has the raw id
    ensures HasRawId(s.clients, c.rawId) ==> r.collections == RetagAll(s.collections, c)
    ensures !HasRawId(s.clients, c.rawId) ==> r.collections == s.collections
  {
    var s1 := if HasRawId(s.clients, c.rawId) then s.(collections := RetagAll(s.collections, c)) else s;
    s1.(clients := ReplaceClient(s1.clients, c))
  }

  /** One pass of the client loop on the record's dict: `Client(**…)`, which
      may fail, then `AddOne`. */
  function ClientStep(s: MemorySchema, e: Fields): (r: Option<MemorySchema>)
    ensures r.Some? <==> ClientModel.FromFields(e).Some?
  {
    var c :- ClientModel.FromFields(e);
    Some(AddOne(s, c))
  }

  /** The memory after the client loop, or None when a record fails validation. */
  function ApplyClients(s: MemorySchema, entries: seq<Fields>): (r: Option<MemorySchema>)
    ensures r.Some? <==> forall j :: 0 <= j < |entries| ==> ClientModel.FromFields(entries[j]).Some?
  {
    StepsSomeIff(s, entries, ClientStep, e => ClientModel.FromFields(e).Some?);
    Steps(s, entries, ClientStep)
  }

  /** A client added later, with another id, leaves an earlier client stored
      under its own id in place. */
  lemma AddOneKeeps(s: MemorySchema, c: Client, k: string, ck: Client)
    requires k != c.id && ck.id == k && Get(s.clients, k) == Some(ck)
    ensures Get(AddOne(s, c).clients, k) == Some(ck)
  {
    var d := s.clients;
    var f := FirstWithId(d, c.id);
    if f.Some? && d[f.value].0 == k {
      GetAt(d, f.value);
      assert false;
    }
  }

  /** The last pass of a successful loop. */
  lemma ApplyClientsLast(s: MemorySchema, entries: seq<Fields>)
    requires entries != [] && ApplyClients(s, entries).Some?
    ensures var n := |entries| - 1;
            && ApplyClients(s, entries[..n]).Some?
            && ClientModel.FromFields(entries[n]).Some?
            && ApplyClients(s, entries).value
               == AddOne(ApplyClients(s, entries[..n]).value, ClientModel.FromFields(entries[n]).value)
  {
  }

  /** Entries whose `id` fields are distinct strings all end up in memory,
      each under its own id, whatever the others do. */
  lemma {:induction false} ApplyClientsStoresAll(s: MemorySchema, entries: seq<Fields>, i: nat)
    requires ApplyClients(s, entries).Some?
    requires forall j :: 0 <= j < |entries| ==> Get(entries[j], "id").Some? && Get(entries[j], "id").value.VStr?
    requires forall j, l :: 0 <= j < l < |entries| ==> Get(entries[j], "id") != Get(entries[l], "id")
    requires i < |entries|
    ensures ClientModel.FromFields(entries[i]).Some?
    ensures var c := ClientModel.FromFields(entries[i]).value;
            Get(ApplyClients(s, entries).value.clients, c.id) == Some(c)
    decreases |entries|, 1
  {
    if i < |entries| - 1 {
      StoresEarlier(s, entries, i);
    } else {
      ApplyClientsLast(s, entries);
    }
  }

  /** An entry before the last one stays stored through the last pass. */
  lemma StoresEarlier(s: MemorySchema, entries: seq<Fields>, i: nat)
    requires ApplyClients(s, entries).Some?
    requires forall j :: 0 <= j < |entries| ==> Get(entries[j], "id").Some? && Get(entries[j], "id").value.VStr?
    requires forall j, l :: 0 <= j < l < |entries| ==> Get(entries[j], "id") != Get(entries[l], "id")
    requires i < |entries| - 1
    ensures var c := ClientModel.FromFields(entries[i]).value;
            ClientModel.FromFields(entries[i]).Some? && Get(ApplyClients(s, entries).value.clients, c.id) == Some(c)
    decreases |entries|, 0
  {
    var n := |entries| - 1;
    ApplyClientsLast(s, entries);
    var s1 := ApplyClients(s, entries[..n]).value;
    var last := ClientModel.FromFields(entries[n]).value;
    assert Get(entries[n], "id") == Some(VStr(last.id));
    assert forall j :: 0 <= j < n ==> entries[..n][j] == entries[j];
    ApplyClientsStoresAll(s, entries[..n], i);
    var c := ClientModel.FromFields(entries[i]).value;
    assert Get(entries[i], "id") == Some(VStr(c.id));
    AddOneKeeps(s1, last, c.id, c);
  }

  /** The result and the new store of `add_clients`. */
  function AddClientsSpec(store: map<string, Entry>, data: seq<Fields>, ttl: nat)
    : (r: (SyncOutcome, map<string, Entry>))
    ensures r.0.Rejected? <==> ErrorsOf(Required, data) != []
    ensures r.0.Rejected? ==> r.0.errors == ErrorsOf(Required, data)
    ensures !r.0.Stored? ==> r.1 == store
    ensures r.0.Stored? ==> r.0.ids == Keys(Batch(data))
    // only a user whose memory already holds clients gets the batch
    ensures ErrorsOf(Required, data) == [] ==>
              (r.0 == NotStored <==> LoadSchema(store, LastUserPhone(Required, data)).clients == [])
    ensures ErrorsOf(Required, data) == [] && LoadSchema(store, LastUserPhone(Required, data)).clients != [] ==>
              r.0.Stored? || r.0 == ModelError
  {
    var errors := ErrorsOf(Required, data);
    if errors != [] then (Rejected(errors), store)
    else
      var user := LastUserPhone(Required, data);
      var s := LoadSchema(store, user);
      if s.clients == [] then (NotStored, store)
      else
        var batch := Batch(data);
        match ApplyClients(s, Dicts.Values(batch))
        case None => (ModelError, store)
        case Some(s') => (Stored(Keys(batch)), SavedData(store, user, s', ttl))
  }

  /** The batch entries, in order, carry distinct string ids. */
  lemma BatchIdsDistinct(data: seq<Fields>)
    ensures var entries: seq<Fields> := Dicts.Values(Batch(data));
            && (forall j :: 0 <= j < |entries| ==> Get(entries[j], "id").Some? && Get(entries[j], "id").value.VStr?)
            && (forall j, l :: 0 <= j < l < |entries| ==> Get(entries[j], "id") != Get(entries[l], "id"))
  {
    var batch := Batch(data);
    var entries := Dicts.Values(batch);
    BatchEntriesKeyed(data);
    forall j, l | 0 <= j < l < |entries| ensures Get(entries[j], "id") != Get(entries[l], "id") {
      assert batch[j].0 != batch[l].0;
    }
  }

  /** After a stored batch, reloading the user's memory finds every batch
      client under its key, as the record made it. */
  lemma AddClientsStoresBatch(store: map<string, Entry>, data: seq<Fields>, ttl: nat, k: string)
    requires AddClientsSpec(store, data, ttl).0.Stored?
    requires k in Keys(Batch(data))
    ensures var mem := LoadSchema(AddClientsSpec(store, data, ttl).1, LastUserPhone(Required, data));
            Get(mem.clients, k) == ClientModel.FromFields(Get(Batch(data), k).value)
  {
    var batch := Batch(data);
    var user := LastUserPhone(Required, data);
    var s := LoadSchema(store, user);
    var entries := Dicts.Values(batch);
    BatchEntriesKeyed(data);
    BatchIdsDistinct(data);
    var i :| 0 <= i < |batch| && batch[i].0 == k;
    ApplyClientsStoresAll(s, entries, i);
    GetAt(batch, i);
    ReloadAfterSave(store, user, ApplyClients(s, entries).value, ttl);
  }

  /** Whether a stored client has this raw id: the scan before `add_client`. */
  method StoredRawId(memory: RedisMemory, rawId: Option<string>) returns (found: bool)
    ensures found == HasRawId(memory.conversation.clients, rawId)
  {
    var clients := memory.conversation.clients;
    var i := 0;
    while i < |clients|
      invariant 0 <= i <= |clients|
      invariant forall j :: 0 <= j < i ==> clients[j].1.rawId != rawId
    {
      if clients[i].1.rawId == rawId {
        return true;
      }
      i := i + 1;
    }
    return false;
  }

  /** `update_client_in_collection`: sets the client's phone and name on each
      stored collection of its raw id, one collection at a time. */
  method UpdateClientInCollection(c: Client, memory: RedisMemory)
    modifies memory
    ensures memory.conversation == old(memory.conversation).(collections := RetagAll(old(memory.conversation.collections), c))
  {
    var d := memory.conversation.collections;
    var cols := d;
    var i := 0;
    while i < |cols|
      invariant 0 <= i <= |cols| == |d|
      invariant forall j :: 0 <= j < i ==> cols[j] == (d[j].0, Retag(d[j].1, c))
      invariant forall j :: i <= j < |cols| ==> cols[j] == d[j]
      invariant memory.conversation == old(memory.conversation)
    {
      ReplaceAt(cols, i, Retag(cols[i].1, c));
      cols := cols[i := (cols[i].0, Retag(cols[i].1, c))];
      i := i + 1;
    }
    assert cols == RetagAll(d, c);
    memory.conversation := memory.conversation.(collections := cols);
  }

  /** One pass of the client loop: validates the entry, updates the
      collections when a stored client shares its raw id, then adds it;
      false when the entry fails validation, with memory untouched. */
  method AddEntry(memory: RedisMemory, e: Fields) returns (ok: bool)
    modifies memory
    ensures ok == ClientStep(old(memory.conversation), e).Some?
    ensures ok ==> memory.conversation == ClientStep(old(memory.conversation), e).value
    ensures !ok ==> memory.conversation == old(memory.conversation)
  {
    var c := ClientModel.FromFields(e);
    if c.None? {
      return false;
    }
    var found := StoredRawId(memory, c.value.rawId);
    if found {
      UpdateClientInCollection(c.value, memory);
    }
    memory.AddClient(c.value);
    return true;
  }

  /** The client loop: validates each batch entry and adds it; false when one
      fails validation (memory is then left half-updated and never saved). */
  method ApplyBatch(memory: RedisMemory, entries: seq<Fields>) returns (ok: bool)
    modifies memory
    ensures ok == ApplyClients(old(memory.conversation), entries).Some?
    ensures ok ==> memory.conversation == ApplyClients(old(memory.conversation), entries).value
  {
    var s0 := memory.conversation;
    var i := 0;
    while i < |entries|
      invariant 0 <= i <= |entries|
      invariant ApplyClients(s0, entries[..i]) == Some(memory.conversation)
    {
      StepsNext(s0, entries, ClientStep, i, memory.conversation);
      ok := AddEntry(memory, entries[i]);
      if !ok {
        StepsNoneSticky(s0, entries, ClientStep, i + 1);
        return false;
      }
      i := i + 1;
    }
    assert entries[..i] == entries;
    return true;
  }

  /** The validation loop of `add_clients`: the batch dict, the errors and
      the user, record by record. */
  method CollectBatch(data: seq<Fields>)
    returns (clients: Dict<string, Fields>, errors: seq<BatchError>, user: string)
    ensures clients == Batch(data)
    ensures errors == ErrorsOf(Required, data)
    ensures user == LastUserPhone(Required, data)
  {
    clients, errors, user := [], [], "";
    var i := 0;
    while i < |data|
      invariant 0 <= i <= |data|
      invariant clients == Batch(data[..i])
      invariant errors == ErrorsOf(Required, data[..i])
      invariant user == LastUserPhone(Required, data[..i])
    {
      BatchStep(data, i);
      ErrorsStep(data, i);
      UserStep(data, i);
      var missing := Missing(Required, data[i]);
      if missing != [] {
        errors := errors + [BatchError(i, missing)];
      } else {
        user := Str(Get(data[i], "userPhoneNumber").value);
        clients := Put(clients, BatchKey(data[i]), BatchEntry(data[i]));
      }
      i := i + 1;
    }
    assert data[..i] == data;
  }

  /** One more record adds its entry to the batch when it is complete. */
  lemma BatchStep(data: seq<Fields>, i: nat)
    requires i < |data|
    ensures Batch(data[..i + 1]) ==
            if Complete(Required, data[i]) then Put(Batch(data[..i]), BatchKey(data[i]), BatchEntry(data[i]))
            else Batch(data[..i])
  {
    assert data[..i + 1][..i] == data[..i];
  }

  lemma ErrorsStep(data: seq<Fields>, i: nat)
    requires i < |data|
    ensures ErrorsOf(Required, data[..i + 1]) ==
            ErrorsOf(Required, data[..i]) + if Complete(Required, data[i]) then [] else [BatchError(i, Missing(Required, data[i]))]
  {
    assert data[..i + 1][..i] == data[..i];
  }

  lemma UserStep(data: seq<Fields>, i: nat)
    requires i < |data|
    ensures LastUserPhone(Required, data[..i + 1]) ==
            if Complete(Required, data[i]) then Str(Get(data[i], "userPhoneNumber").value)
            else LastUserPhone(Required, data[..i])
  {
    assert data[..i + 1][..i] == data[..i];
  }

  /** `add_clients`. */
  method AddClients(store: Store, data: seq<Fields>, ttl: nat) returns (r: SyncOutcome)
    modifies store
    ensures (r, store.data) == AddClientsSpec(old(store.data), data, ttl)
  {
    var clients, errors, user := CollectBatch(data);
    if errors != [] {
      return Rejected(errors);
    }
    var memory := new RedisMemory(store, user, ttl);
    if memory.conversation.clients == [] {
      return NotStored;
    }
    var ok := ApplyBatch(memory, Dicts.Values(clients));
    if !ok {
      return ModelError;
    }
    memory.Save();
    return Stored(Keys(clients));
  }
}
