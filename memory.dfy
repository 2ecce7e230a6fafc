/** A user's conversation memory as the agent sees it: the schema loaded from
    the store under `conversation:<user>`, changed in place by the agent and
    the sync services, and written back with a fresh expiry. */
module Memory {
  import opened Text
  import opened Dicts
  import opened ClientModel
  import opened CollectionModel
  import opened Schema
  import opened KeyValue

  /** `MemorySchema.from_json`: a stored conversation decodes to itself; any
      text that fails to parse or to validate gives the empty schema. */
  function FromJson(b: Blob): (s: MemorySchema)
    ensures b.ConversationBlob? ==> s == b.schema
    ensures !b.ConversationBlob? ==> s == EmptySchema
  {
    match b
    case ConversationBlob(schema) => schema
    case _ => EmptySchema
  }

  /** `load_conversation`: the schema under `conversation:<user>`, or the empty
      schema when the key is missing or holds no usable text. */
  function LoadSchema(data: map<string, Entry>, userId: string): (s: MemorySchema)
    ensures ConversationKey(userId) !in data ==> s == EmptySchema
    ensures ConversationKey(userId) in data && data[ConversationKey(userId)].blob.ConversationBlob?
            ==> s == data[ConversationKey(userId)].blob.schema
    ensures ConversationKey(userId) in data && !data[ConversationKey(userId)].blob.ConversationBlob?
            ==> s == EmptySchema
  {
    var key := ConversationKey(userId);
    var b := if key in data then Some(data[key].blob) else None;
    if !Present(b) then EmptySchema else FromJson(b.value)
  }

  /** The store after `save`: the schema under the conversation key with the
      session expiry, the user key's expiry refreshed if that key exists. */
  function SavedData(data: map<string, Entry>, userId: string, s: MemorySchema, ttl: nat)
    : (r: map<string, Entry>)
    ensures ConversationKey(userId) in r && r[ConversationKey(userId)] == Entry(ConversationBlob(s), Some(ttl))
    ensures UserKey(userId) in data ==> UserKey(userId) in r && r[UserKey(userId)] == Entry(data[UserKey(userId)].blob, Some(ttl))
    ensures UserKey(userId) !in data ==> UserKey(userId) !in r
    ensures forall k :: k != ConversationKey(userId) && k != UserKey(userId) ==>
              (k in r <==> k in data) && (k in r ==> r[k] == data[k])
  {
    KeysSeparate(userId, userId);
    var written := data[ConversationKey(userId) := Entry(ConversationBlob(s), Some(ttl))];
    if UserKey(userId) in written then
      written[UserKey(userId) := Entry(written[UserKey(userId)].blob, Some(ttl))]
    else written
  }

  /** Loading what `save` wrote gives back the same messages, clients and collections. */
  lemma ReloadAfterSave(data: map<string, Entry>, userId: string, s: MemorySchema, ttl: nat)
    ensures LoadSchema(SavedData(data, userId, s, ttl), userId) == s
  {
  }

  /** The first position whose client has the given `id`. */
  function FirstWithId(d: Dict<string, Client>, id: string): (r: Option<nat>)
    ensures r.Some? ==> r.value < |d| && d[r.value].1.id == id
    ensures r.Some? ==> forall j :: 0 <= j < r.value ==> d[j].1.id != id
    ensures r.None? ==> forall j :: 0 <= j < |d| ==> d[j].1.id != id
  {
    if |d| == 0 then None
    else if d[0].1.id == id then Some(0)
    else match FirstWithId(d[1..], id)
      case None => None
      case Some(i) => Some(i + 1)
  }

  /** The clients after `add_client(c)`: the first entry holding a client with
      `c`'s id is dropped, whatever its key, then `c` is stored under its id. */
  function ReplaceClient(d: Dict<string, Client>, c: Client): (r: Dict<string, Client>)
    ensures Get(r, c.id) == Some(c)
    ensures FirstWithId(d, c.id).Some? ==> !Has(r, d[FirstWithId(d, c.id).value].0) || d[FirstWithId(d, c.id).value].0 == c.id
    ensures forall k :: k != c.id && (FirstWithId(d, c.id).None? || k != d[FirstWithId(d, c.id).value].0)
              ==> Get(r, k) == Get(d, k)
  {
    match FirstWithId(d, c.id)
    case None => Put(d, c.id, c)
    case Some(j) => Put(RemoveAt(d, j), c.id, c)
  }

  /** Every client is stored under its own id, as `add_client` and the
      conversation hydration both key them. */
  predicate KeyedById(d: Dict<string, Client>) {
    forall i :: 0 <= i < |d| ==> d[i].0 == d[i].1.id
  }

  /** No two stored clients share an id. */
  predicate UniqueIds(d: Dict<string, Client>) {
    forall i, j :: 0 <= i < j < |d| ==> d[i].1.id != d[j].1.id
  }

  /** Clients keyed by their ids never repeat an id. */
  lemma KeyedUnique(d: Dict<string, Client>)
    requires KeyedById(d)
    ensures UniqueIds(d)
  {
    forall i, j | 0 <= i < j < |d| ensures d[i].1.id != d[j].1.id {
      assert d[i].0 != d[j].0;
    }
  }

  /** On clients keyed by id, `add_client(c)` moves `c` to the end: the old
      entry for its id goes and the others keep their order. So no stale
      copy remains and the keying is kept. */
  lemma ReplaceClientKeyed(d: Dict<string, Client>, c: Client)
    requires KeyedById(d)
    ensures ReplaceClient(d, c) == Remove(d, c.id) + [(c.id, c)]
    ensures KeyedById(ReplaceClient(d, c)) && UniqueIds(ReplaceClient(d, c))
  {
    var f := FirstWithId(d, c.id);
    if f.Some? {
      FindAt(d, f.value);
      assert Find(d, c.id) == Some(f.value);
      assert !Has(RemoveAt(d, f.value), c.id);
    }
    var r := ReplaceClient(d, c);
    var m := Remove(d, c.id);
    assert r == m + [(c.id, c)];
    assert forall i :: 0 <= i < |m| ==> m[i] == (if f.None? || i < f.value then d[i] else d[i + 1]);
    KeyedUnique(r);
  }

  class RedisMemory {
    /** The shared key-value store. */
    const store: Store
    const userId: string
    /** `conversation:<user>`. */
    const key: string := ConversationKey(userId)
    /** The expiry, in seconds, given to both keys on every save. */
    const sessionBufferTime: nat
    /** `stored_conversation`. */
    var conversation: MemorySchema

    /** `RedisMemory(user_id)` loads the stored conversation. */
    constructor(store: Store, userId: string, sessionBufferTime: nat)
      ensures this.store == store && this.userId == userId
      ensures key == ConversationKey(userId) && this.sessionBufferTime == sessionBufferTime
      ensures conversation == LoadSchema(store.data, userId)
    {
      this.store := store;
      this.userId := userId;
      this.sessionBufferTime := sessionBufferTime;
      var data := store.Get(ConversationKey(userId));
      if data.Some? && data.value != Corrupt("") {
        conversation := FromJson(data.value);
      } else {
        conversation := EmptySchema;
      }
    }

    /** `add_user_message`: one more entry with role `user`, earlier ones kept. */
    method AddUserMessage(content: string, timestamp: string)
      modifies this
      ensures conversation == old(conversation).(messages := old(conversation.messages) + [ChatEntry("user", content, timestamp)])
    {
      conversation := conversation.(messages := conversation.messages + [ChatEntry("user", content, timestamp)]);
    }

    /** `add_ai_message`: one more entry with role `assistant`, earlier ones kept. */
    method AddAiMessage(content: string, timestamp: string)
      modifies this
      ensures conversation == old(conversation).(messages := old(conversation.messages) + [ChatEntry("assistant", content, timestamp)])
    {
      conversation := conversation.(messages := conversation.messages + [ChatEntry("assistant", content, timestamp)]);
    }

    /** `add_client`: scans for the first client with the same id, deletes it,
        then stores the new client under its id. */
    method AddClient(c: Client)
      modifies this
      ensures conversation == old(conversation).(clients := ReplaceClient(old(conversation.clients), c))
    {
      var clients := conversation.clients;
      var i := 0;
      while i < |clients| && clients[i].1.id != c.id
        invariant 0 <= i <= |clients|
        invariant forall j :: 0 <= j < i ==> clients[j].1.id != c.id
      {
        i := i + 1;
      }
      assert FirstWithId(clients, c.id) == if i < |clients| then Some(i) else None;
      if i < |clients| {
        clients := RemoveAt(clients, i);
      }
      clients := Put(clients, c.id, c);
      conversation := conversation.(clients := clients);
    }

    /** `add_collection`: insert or replace under the collection's id. */
    method AddCollection(c: Collection)
      modifies this
      ensures conversation == old(conversation).(collections := Put(old(conversation.collections), c.id, c))
    {
      conversation := conversation.(collections := Put(conversation.collections, c.id, c));
    }

    /** `delete_collection`: removes a non-empty id that is present. */
    method DeleteCollection(id: string)
      modifies this
      ensures id != "" ==> conversation == old(conversation).(collections := Remove(old(conversation.collections), id))
      ensures id == "" ==> conversation == old(conversation)
    {
      if id != "" {
        var collections := conversation.collections;
        if Has(collections, id) {
          collections := Remove(collections, id);
        }
        conversation := conversation.(collections := collections);
      }
    }

    /** `save`: writes the schema with the session expiry and refreshes the
        expiry of the user record. */
    method Save()
      modifies store
      ensures store.data == SavedData(old(store.data), userId, conversation, sessionBufferTime)
      ensures LoadSchema(store.data, userId) == conversation
    {
      KeysSeparate(userId, userId);
      store.Set(key, ConversationBlob(conversation), Some(sessionBufferTime));
      store.Expire(UserKey(userId), sessionBufferTime);
      ReloadAfterSave(old(store.data), userId, conversation, sessionBufferTime);
    }
  }
}
