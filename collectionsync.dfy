/** `CollectionService.add_collections`: a batch of collection records is
    checked as a whole, keyed by id, and applied to the creditor's memory:
    inactive collections are deleted, active ones inserted or replaced. */
module CollectionSync {
  import opened Text
  import opened Dicts
  import opened Values
  import opened CollectionModel
  import opened Schema
  import opened KeyValue
  import opened Memory
  import opened Batches

  const Required: seq<string> :=
    ["id", "clientId", "clientPhoneNumber", "clientFullName", "userId", "userPhoneNumber",
     "userFullName", "paymentStatus", "description", "currency", "amount", "collectionDate",
     "paymentDate", "totalQuotas", "numberQuota", "frequencyPayment", "active"]

  lemma UserPhoneRequired()
    ensures "userPhoneNumber" in Required
  {
    assert Required[5] == "userPhoneNumber";
  }

  /** A value Python can use as a dict key: lists and dicts cannot. */
  predicate Hashable(v: Value) {
    !v.VList? && !v.VObj?
  }

  /** `collection["id"]`, the key of a complete record. */
  function BatchKey(rec: Fields): Value
    requires Complete(Required, rec)
  {
    Get(rec, "id").value
  }

  /** The names of the dict a complete record is turned into, in the order
      the service writes them. */
  const EntryNames: seq<string> :=
    ["id", "client_id", "client_cellphone", "client_full_name", "acreetor_id",
     "acreetor_cellphone", "acreetor_full_name", "status", "description", "currency",
     "amount", "collection_date", "payment_date", "total_quotas", "quota_number",
     "frequency_payment", "active"]

  lemma EntryNamesDistinct()
    ensures forall i, j :: 0 <= i < j < |EntryNames| ==> EntryNames[i] != EntryNames[j]
  {
    forall i, j | 0 <= i < j < |EntryNames| ensures EntryNames[i] != EntryNames[j] {
      var a, b := EntryNames[i], EntryNames[j];
      assert |a| != |b| || a[0] != b[0] || a[|a| - 1] != b[|b| - 1] || a[1] != b[1]
             || a[|a| - 2] != b[|b| - 2];
    }
  }

  /** The dict a complete record is turned into before `Collection(**…)`:
      the record's required fields in order, each under its new name. */
  function BatchEntry(rec: Fields): (e: Fields)
    requires Complete(Required, rec)
    ensures Keys(e) == EntryNames
    ensures forall i :: 0 <= i < |EntryNames| ==> Get(e, EntryNames[i]) == Get(rec, Required[i])
    ensures Get(e, "id") == Some(BatchKey(rec))
  {
    EntryNamesDistinct();
    var e := Zip(EntryNames, Lookup(rec, Required));
    forall i | 0 <= i < |EntryNames| ensures Get(e, EntryNames[i]) == Get(rec, Required[i]) {
      GetAt(e, i);
    }
    assert EntryNames[0] == "id" && Required[0] == "id";
    e
  }

  /** Whether some complete record has an id that cannot be a dict key: the
      validation loop stops with `TypeError` at the first one. */
  predicate AnyUnhashable(data: seq<Fields>) {
    if data == [] then false
    else
      var n := |data| - 1;
      AnyUnhashable(data[..n]) || (Complete(Required, data[n]) && !Hashable(BatchKey(data[n])))
  }

  /** An unhashable id in a prefix stops the whole batch. */
  lemma {:induction false} UnhashableSticky(data: seq<Fields>, i: nat)
    requires i <= |data| && AnyUnhashable(data[..i])
    ensures AnyUnhashable(data)
  {
    if i < |data| {
      var n := |data| - 1;
      assert data[..n][..i] == data[..i];
      UnhashableSticky(data[..n], i);
    } else {
      assert data[..i] == data;
    }
  }

  /** `AnyUnhashable` holds exactly when some complete record's id is unhashable. */
  lemma {:induction false} AnyUnhashableExists(data: seq<Fields>)
    ensures AnyUnhashable(data) <==>
            exists i :: 0 <= i < |data| && Complete(Required, data[i]) && !Hashable(BatchKey(data[i]))
  {
    if data != [] {
      var n := |data| - 1;
      AnyUnhashableExists(data[..n]);
      if exists i :: 0 <= i < |data| && Complete(Required, data[i]) && !Hashable(BatchKey(data[i])) {
        var i :| 0 <= i < |data| && Complete(Required, data[i]) && !Hashable(BatchKey(data[i]));
        if i < n {
          assert data[..n][i] == data[i];
        }
      }
      if AnyUnhashable(data[..n]) {
        var i :| 0 <= i < n && Complete(Required, data[..n][i]) && !Hashable(BatchKey(data[..n][i]));
        assert data[..n][i] == data[i];
      }
    }
  }

  /** The (key, entry) pairs of the complete records, in input order. */
  function Pairs(data: seq<Fields>): (ps: seq<(Value, Fields)>)
    ensures |ps| <= |data|
  {
    if data == [] then []
    else
      var n := |data| - 1;
      if Complete(Required, data[n]) then Pairs(data[..n]) + [(BatchKey(data[n]), BatchEntry(data[n]))]
      else Pairs(data[..n])
  }

  /** The `collections` dict the validation loop builds. */
  function Batch(data: seq<Fields>): (b: Dict<Value, Fields>)
    ensures |b| <= |data|
  {
    FromPairs(Pairs(data))
  }

  /** A record whose id repeats an earlier one replaces it. */
  lemma BatchLastWins(data: seq<Fields>, k: Value)
    ensures Get(Batch(data), k) == LastWith(Pairs(data), k)
  {
    FromPairsLastWins(Pairs(data), k);
  }

  /** Every entry of the batch has its own key as its `id` field. */
  lemma {:induction false} BatchEntriesKeyed(data: seq<Fields>)
    ensures forall i :: 0 <= i < |Batch(data)| ==> Get(Batch(data)[i].1, "id") == Some(Batch(data)[i].0)
  {
    if data != [] {
      var n := |data| - 1;
      BatchEntriesKeyed(data[..n]);
      if Complete(Required, data[n]) {
        assert Batch(data) == Put(Batch(data[..n]), BatchKey(data[n]), BatchEntry(data[n]));
        PutKeyed(Batch(data[..n]), BatchKey(data[n]), BatchEntry(data[n]));
      } else {
        assert Batch(data) == Batch(data[..n]);
      }
    }
  }

  /** Storing an entry under its own id keeps every entry under its own id. */
  lemma PutKeyed(d: Dict<Value, Fields>, k: Value, e: Fields)
    requires forall i :: 0 <= i < |d| ==> Get(d[i].1, "id") == Some(d[i].0)
    requires Get(e, "id") == Some(k)
    ensures var r := Put(d, k, e);
            forall i :: 0 <= i < |r| ==> Get(r[i].1, "id") == Some(r[i].0)
  {
    var r := Put(d, k, e);
    forall i | 0 <= i < |r| ensures Get(r[i].1, "id") == Some(r[i].0) {
      GetAt(r, i);
      if r[i].0 != k {
        GetAt(d, Find(d, r[i].0).value);
      }
    }
  }

  /** A collection the loop keeps: `active` is True (None and False are not). */
  predicate IsActive(c: Collection) {
    c.active == Some(true)
  }

  /** What the loop does with one validated collection: `delete_collection`
      when it is inactive, `add_collection` and its id recorded when active. */
  function Apply(acc: (MemorySchema, seq<string>), c: Collection): (MemorySchema, seq<string>) {
    var (s, ids) := acc;
    if !IsActive(c) then
      (if c.id != "" then s.(collections := Remove(s.collections, c.id)) else s, ids)
    else
      (s.(collections := Put(s.collections, c.id, c)), ids + [c.id])
  }

  /** One pass of the collection loop: `Collection(**…)`, which may fail, then `Apply`. */
  function CollectionStep(acc: (MemorySchema, seq<string>), e: Fields): (r: Option<(MemorySchema, seq<string>)>)
    ensures r.Some? <==> CollectionModel.FromFields(e).Some?
  {
    var c :- CollectionModel.FromFields(e);
    Some(Apply(acc, c))
  }

  /** The memory and the recorded ids after the loop, or None when a record
      fails validation. */
  function ApplyCollections(s: MemorySchema, entries: seq<Fields>): (r: Option<(MemorySchema, seq<string>)>)
    ensures r.Some? <==> forall j :: 0 <= j < |entries| ==> CollectionModel.FromFields(entries[j]).Some?
  {
    StepsSomeIff((s, []), entries, CollectionStep, e => CollectionModel.FromFields(e).Some?);
    Steps((s, []), entries, CollectionStep)
  }

  /** The last pass of a successful loop. */
  lemma ApplyCollectionsLast(s: MemorySchema, entries: seq<Fields>)
    requires entries != [] && ApplyCollections(s, entries).Some?
    ensures ApplyCollections(s, entries[..|entries| - 1]).Some?
    ensures CollectionModel.FromFields(entries[|entries| - 1]).Some?
    ensures ApplyCollections(s, entries).value
            == Apply(ApplyCollections(s, entries[..|entries| - 1]).value,
                     CollectionModel.FromFields(entries[|entries| - 1]).value)
  {
  }

  /** One more pass of a successful loop: it fails with the record, or applies
      the record's collection. */
  lemma ApplyCollectionsStep(s: MemorySchema, entries: seq<Fields>, i: nat)
    requires i < |entries| && ApplyCollections(s, entries[..i]).Some?
    ensures ApplyCollections(s, entries[..i + 1])
            == match CollectionModel.FromFields(entries[i])
               case None => None
               case Some(c) => Some(Apply(ApplyCollections(s, entries[..i]).value, c))
  {
    assert entries[..i + 1][..i] == entries[..i];
    assert entries[..i + 1][i] == entries[i];
  }

  /** One pass on its own: an active collection is stored and recorded, an
      inactive one with a non-empty id is gone; other ids are untouched. */
  lemma ApplyEffect(acc: (MemorySchema, seq<string>), c: Collection, k: string)
    ensures var r := Apply(acc, c);
            (IsActive(c) ==> Get(r.0.collections, c.id) == Some(c))
            && (!IsActive(c) && c.id != "" ==> !Has(r.0.collections, c.id))
            && r.1 == acc.1 + (if IsActive(c) then [c.id] else [])
            && (k != c.id ==> Get(r.0.collections, k) == Get(acc.0.collections, k))
  {
  }

  /** Every recorded id is the id of some entry. */
  lemma {:induction false} IdsFromEntries(s: MemorySchema, entries: seq<Fields>, x: string)
    requires ApplyCollections(s, entries).Some?
    requires x in ApplyCollections(s, entries).value.1
    ensures exists j :: 0 <= j < |entries| && Get(entries[j], "id") == Some(VStr(x))
  {
    var n := |entries| - 1;
    ApplyCollectionsLast(s, entries);
    var prev := ApplyCollections(s, entries[..n]).value;
    var c := CollectionModel.FromFields(entries[n]).value;
    ApplyEffect(prev, c, x);
    if x in prev.1 {
      IdsFromEntries(s, entries[..n], x);
      var j :| 0 <= j < n && Get(entries[..n][j], "id") == Some(VStr(x));
      assert entries[..n][j] == entries[j];
    } else {
      assert x == c.id;
    }
  }

  /** Entries whose ids are distinct: each active collection is stored and its
      id recorded; each inactive one is gone from memory (when its id is not
      empty) and not recorded. */
  lemma {:induction false} ApplyCollectionsEffect(s: MemorySchema, entries: seq<Fields>, i: nat)
    requires ApplyCollections(s, entries).Some?
    requires forall j, l :: 0 <= j < l < |entries| ==> Get(entries[j], "id") != Get(entries[l], "id")
    requires i < |entries|
    ensures CollectionModel.FromFields(entries[i]).Some?
    ensures var c := CollectionModel.FromFields(entries[i]).value;
            var (s', ids) := ApplyCollections(s, entries).value;
            (IsActive(c) ==> Get(s'.collections, c.id) == Some(c) && c.id in ids)
            && (!IsActive(c) && c.id != "" ==> !Has(s'.collections, c.id))
            && (!IsActive(c) ==> c.id !in ids)
  {
    var n := |entries| - 1;
    ApplyCollectionsLast(s, entries);
    var prev := ApplyCollections(s, entries[..n]).value;
    var last := CollectionModel.FromFields(entries[n]).value;
    if i < n {
      assert entries[..n][i] == entries[i];
      ApplyCollectionsEffect(s, entries[..n], i);
      var c := CollectionModel.FromFields(entries[i]).value;
      assert Get(entries[i], "id") != Get(entries[n], "id");
      ApplyEffect(prev, last, c.id);
    } else {
      ApplyEffect(prev, last, last.id);
      forall j | 0 <= j < n ensures Get(entries[..n][j], "id") != Some(VStr(last.id)) {
        assert entries[..n][j] == entries[j];
      }
      if last.id in prev.1 {
        IdsFromEntries(s, entries[..n], last.id);
        assert false;
      }
    }
  }

  /** The id an entry contributes to `added_collection_ids`: the id of the
      collection it validates to, when that collection is active. */
  function ActiveId(e: Fields): Option<string> {
    var c := CollectionModel.FromFields(e);
    if c.Some? && IsActive(c.value) then Some(c.value.id) else None
  }

  /** The ids of the entries that validate to an active collection, in
      entry order. */
  function ActiveIds(entries: seq<Fields>): seq<string> {
    FilterMap(entries, ActiveId)
  }

  /** The ids a successful loop records are exactly the active ids, in
      entry order. */
  lemma {:induction false} ApplyCollectionsIds(s: MemorySchema, entries: seq<Fields>)
    ensures ApplyCollections(s, entries).Some? ==> ApplyCollections(s, entries).value.1 == ActiveIds(entries)
  {
    if entries != [] && ApplyCollections(s, entries).Some? {
      var n := |entries| - 1;
      ApplyCollectionsLast(s, entries);
      ApplyCollectionsIds(s, entries[..n]);
      var c := CollectionModel.FromFields(entries[n]).value;
      ApplyEffect(ApplyCollections(s, entries[..n]).value, c, c.id);
      assert ActiveIds(entries) == ActiveIds(entries[..n]) + (if IsActive(c) then [c.id] else []);
    }
  }

  /** The result and the new store of `add_collections`. */
  function AddCollectionsSpec(store: map<string, Entry>, data: seq<Fields>, ttl: nat)
    : (r: (SyncOutcome, map<string, Entry>))
    ensures r.0 == Unhashable <==> AnyUnhashable(data)
    ensures r.0.Rejected? <==> !AnyUnhashable(data) && ErrorsOf(Required, data) != []
    ensures r.0.Rejected? ==> r.0.errors == ErrorsOf(Required, data)
    ensures !r.0.Stored? ==> r.1 == store
    // the result lists the active batch collections' ids, in batch order
    ensures r.0.Stored? ==> r.0.ids == ActiveIds(Dicts.Values(Batch(data)))
    // only a user whose memory already holds collections gets the batch
    ensures !AnyUnhashable(data) && ErrorsOf(Required, data) == [] ==>
              (r.0 == NotStored <==> LoadSchema(store, LastUserPhone(Required, data)).collections == [])
    ensures !AnyUnhashable(data) && ErrorsOf(Required, data) == []
            && LoadSchema(store, LastUserPhone(Required, data)).collections != [] ==>
              r.0.Stored? || r.0 == ModelError
  {
    if AnyUnhashable(data) then (Unhashable, store)
    else
      var errors := ErrorsOf(Required, data);
      if errors != [] then (Rejected(errors), store)
      else
        var user := LastUserPhone(Required, data);
        var s := LoadSchema(store, user);
        if s.collections == [] then (NotStored, store)
        else
          ApplyCollectionsIds(s, Dicts.Values(Batch(data)));
          match ApplyCollections(s, Dicts.Values(Batch(data)))
          case None => (ModelError, store)
          case Some((s', ids)) => (Stored(ids), SavedData(store, user, s', ttl))
  }

  /** After a stored batch, reloading the user's memory finds every active
      batch collection under its id and no inactive one; the result records
      a collection's id exactly when it is active. */
  lemma AddCollectionsApplied(store: map<string, Entry>, data: seq<Fields>, ttl: nat, k: Value)
    requires AddCollectionsSpec(store, data, ttl).0.Stored?
    requires Has(Batch(data), k)
    ensures var c := CollectionModel.FromFields(Get(Batch(data), k).value);
            var (r, after) := AddCollectionsSpec(store, data, ttl);
            var mem := LoadSchema(after, LastUserPhone(Required, data));
            c.Some?
            && (IsActive(c.value) ==> Get(mem.collections, c.value.id) == Some(c.value) && c.value.id in r.ids)
            && (!IsActive(c.value) && c.value.id != "" ==> !Has(mem.collections, c.value.id))
            && (!IsActive(c.value) ==> c.value.id !in r.ids)
  {
    var batch := Batch(data);
    var user := LastUserPhone(Required, data);
    var s := LoadSchema(store, user);
    var entries := Dicts.Values(batch);
    BatchEntriesKeyed(data);
    forall j, l | 0 <= j < l < |entries| ensures Get(entries[j], "id") != Get(entries[l], "id") {
      assert batch[j].0 != batch[l].0;
    }
    var i := Find(batch, k).value;
    ApplyCollectionsEffect(s, entries, i);
    GetAt(batch, i);
    ReloadAfterSave(store, user, ApplyCollections(s, entries).value.0, ttl);
  }

  // What the validation loop knows after one more record, one lemma per
  // variable it keeps.

  lemma UnhashableStep(data: seq<Fields>, i: nat)
    requires i < |data|
    ensures AnyUnhashable(data[..i + 1]) ==
            (AnyUnhashable(data[..i]) || (Complete(Required, data[i]) && !Hashable(BatchKey(data[i]))))
  {
    assert data[..i + 1][..i] == data[..i];
  }

  lemma BatchStep(data: seq<Fields>, i: nat)
    requires i < |data|
    ensures Batch(data[..i + 1]) ==
            if Complete(Required, data[i]) then Put(Batch(data[..i]), BatchKey(data[i]), BatchEntry(data[i]))
            else Batch(data[..i])
  {
    assert data[..i + 1][..i] == data[..i];
  }

  lemma ErrorsStep(data: seq<Fields>, i: nat)
    requires i < |data|
    ensures ErrorsOf(Required, data[..i + 1]) ==
            ErrorsOf(Required, data[..i]) + if Complete(Required, data[i]) then [] else [BatchError(i, Missing(Required, data[i]))]
  {
    assert data[..i + 1][..i] == data[..i];
  }

  lemma UserStep(data: seq<Fields>, i: nat)
    requires i < |data|
    ensures LastUserPhone(Required, data[..i + 1]) ==
            if Complete(Required, data[i]) then Str(Get(data[i], "userPhoneNumber").value)
            else LastUserPhone(Required, data[..i])
  {
    assert data[..i + 1][..i] == data[..i];
  }

  /** The validation loop of `add_collections`: the batch dict, the errors and
      the user, record by record; stops with `TypeError` at an unhashable id. */
  method CollectBatch(data: seq<Fields>)
    returns (unhashable: bool, collections: Dict<Value, Fields>, errors: seq<BatchError>, user: string)
    ensures unhashable == AnyUnhashable(data)
    ensures !unhashable ==> collections == Batch(data) && errors == ErrorsOf(Required, data)
                            && user == LastUserPhone(Required, data)
  {
    unhashable, collections, errors, user := false, [], [], "";
    var i := 0;
    while i < |data|
      invariant 0 <= i <= |data|
      invariant !AnyUnhashable(data[..i])
      invariant collections == Batch(data[..i])
      invariant errors == ErrorsOf(Required, data[..i])
      invariant user == LastUserPhone(Required, data[..i])
    {
      UnhashableStep(data, i);
      BatchStep(data, i);
      ErrorsStep(data, i);
      UserStep(data, i);
      var missing := Missing(Required, data[i]);
      if missing != [] {
        errors := errors + [BatchError(i, missing)];
      } else {
        UserPhoneRequired();
        CompleteHas(Required, data[i], "userPhoneNumber");
        user := Str(Get(data[i], "userPhoneNumber").value);
        var key := BatchKey(data[i]);
        if !Hashable(key) {
          assert AnyUnhashable(data[..i + 1]);
          UnhashableSticky(data, i + 1);
          return true, collections, errors, user;
        }
        collections := Put(collections, key, BatchEntry(data[i]));
      }
      i := i + 1;
    }
    assert data[..i] == data;
  }

  /** The collection loop: validates each batch entry and deletes or adds it;
      false when one fails validation (memory is then never saved). */
  method ApplyBatch(memory: RedisMemory, entries: seq<Fields>) returns (ok: bool, ids: seq<string>)
    modifies memory
    ensures ok == ApplyCollections(old(memory.conversation), entries).Some?
    ensures ok ==> (memory.conversation, ids) == ApplyCollections(old(memory.conversation), entries).value
  {
    var s0 := memory.conversation;
    ids := [];
    var i := 0;
    while i < |entries|
      invariant 0 <= i <= |entries|
      invariant ApplyCollections(s0, entries[..i]) == Some((memory.conversation, ids))
    {
      var c := CollectionModel.FromFields(entries[i]);
      ApplyCollectionsStep(s0, entries, i);
      if c.None? {
        StepsNoneSticky((s0, []), entries, CollectionStep, i + 1);
        return false, ids;
      }
      ghost var before := (memory.conversation, ids);
      if !IsActive(c.value) {
        memory.DeleteCollection(c.value.id);
      } else {
        memory.AddCollection(c.value);
        ids := ids + [c.value.id];
      }
      assert (memory.conversation, ids) == Apply(before, c.value);
      i := i + 1;
    }
    assert entries[..i] == entries;
    return true, ids;
  }

  /** `add_collections`. */
  method AddCollections(store: Store, data: seq<Fields>, ttl: nat) returns (r: SyncOutcome)
    modifies store
    ensures (r, store.data) == AddCollectionsSpec(old(store.data), data, ttl)
  {
    var unhashable, collections, errors, user := CollectBatch(data);
    if unhashable {
      return Unhashable;
    }
    if errors != [] {
      return Rejected(errors);
    }
    var memory := new RedisMemory(store, user, ttl);
    if memory.conversation.collections == [] {
      return NotStored;
    }
    var ok, ids := ApplyBatch(memory, Dicts.Values(collections));
    if !ok {
      return ModelError;
    }
    memory.Save();
    return Stored(ids);
  }
}
