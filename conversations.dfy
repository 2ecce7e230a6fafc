/** Looking up the conversation stored under `conversation:<id>`, or
    building a new one from the Indi user's clients and collections and
    storing it for the session. */
module Conversations {
  import opened Text
  import opened Dicts
  import opened ClientModel
  import opened CollectionModel
  import opened Schema
  import opened UserModel
  import opened KeyValue
  import Memory

  /** `Conversation.model_validate_json` on the stored text: a stored
      conversation decodes to itself; the JSON of another record has none of
      its fields, so all take their empty defaults; text that is not JSON
      fails validation. */
  function DecodeConversation(b: Blob): (r: Outcome<MemorySchema>)
    ensures r.Raised? <==> b.Corrupt?
  {
    match b
    case ConversationBlob(s) => Ok(s)
    case Corrupt(_) => Raised("ValidationError: invalid JSON")
    case _ => Ok(EmptySchema)
  }

  /** The (id, item) pairs of a list, in order. */
  function IdPairs<V>(items: seq<V>, id: V -> string): (ps: seq<(string, V)>)
    ensures |ps| == |items|
    ensures forall i :: 0 <= i < |items| ==> ps[i] == (id(items[i]), items[i])
  {
    seq(|items|, i requires 0 <= i < |items| => (id(items[i]), items[i]))
  }

  /** `{x.id: x for x in items}`. */
  function ById<V>(items: seq<V>, id: V -> string): Dict<string, V> {
    FromPairs(IdPairs(items, id))
  }

  /** The value for key `k` in a list of pairs is the one at the last
      position holding `k`; a key no pair holds has none. */
  lemma {:induction false} LastWithAt<V>(s: seq<(string, V)>, k: string, i: int)
    requires i == -1 || (0 <= i < |s| && s[i].0 == k)
    requires forall j :: i < j < |s| ==> s[j].0 != k
    ensures i == -1 ==> LastWith(s, k) == None
    ensures i >= 0 ==> LastWith(s, k) == Some(s[i].1)
  {
    if |s| > 0 && i != |s| - 1 {
      var init := s[..|s| - 1];
      assert forall j :: i < j < |init| ==> init[j] == s[j];
      LastWithAt(init, k, i);
    }
  }

  /** Building the dict by id keeps, for each id, the last item with that
      id, and holds no other key. */
  lemma ByIdLastWins<V>(items: seq<V>, id: V -> string, i: nat)
    requires i < |items| && forall j :: i < j < |items| ==> id(items[j]) != id(items[i])
    ensures Get(ById(items, id), id(items[i])) == Some(items[i])
  {
    var ps := IdPairs(items, id);
    FromPairsLastWins(ps, id(items[i]));
    LastWithAt(ps, id(items[i]), i);
  }

  /** An id no item carries is not a key of the dict built by id. */
  lemma ByIdAbsent<V>(items: seq<V>, id: V -> string, k: string)
    requires forall j :: 0 <= j < |items| ==> id(items[j]) != k
    ensures !Has(ById(items, id), k)
  {
    var ps := IdPairs(items, id);
    FromPairsLastWins(ps, k);
    LastWithAt(ps, k, -1);
  }

  function ClientId(c: Client): string { c.id }
  function CollectionId(c: Collection): string { c.id }

  /** The conversation built for a user with no stored one: an Indi user's
      clients and collections keyed by id, nothing at all for anyone else;
      the history always starts empty. */
  function NewConversation(user: User, clients: seq<Client>, collections: seq<Collection>): (s: MemorySchema)
    ensures s.messages == []
    ensures !user.isIndiUser ==> s == EmptySchema
  {
    if user.isIndiUser then MemorySchema([], ById(collections, CollectionId), ById(clients, ClientId))
    else EmptySchema
  }

  /** `get_or_create_conversation` on the store: `clients` and `collections`
      are what the Indi API lists for the user, `ttl` the session buffer
      time. */
  function ConversationSpec(data: map<string, Entry>, user: User, clients: seq<Client>,
                            collections: seq<Collection>, ttl: nat): (r: (Outcome<MemorySchema>, map<string, Entry>))
    // the one write is a new conversation, under the user's key, with the
    // session expiry; a new conversation always starts with no history
    ensures r.0.Raised? ==> r.1 == data
    ensures r.1 != data ==>
              (r.0.Ok? && r.0.value.messages == []
               && r.1 == data[ConversationKey(user.userId) := Entry(ConversationBlob(r.0.value), Some(ttl))])
  {
    var key := ConversationKey(user.userId);
    var stored := if key in data then Some(data[key].blob) else None;
    if Present(stored) then (DecodeConversation(stored.value), data)
    else
      var s := NewConversation(user, clients, collections);
      (Ok(s), data[key := Entry(ConversationBlob(s), Some(ttl))])
  }

  /** A stored conversation is returned as it is, whatever the provider
      lists, and nothing is written. */
  lemma StoredConversationWins(data: map<string, Entry>, user: User, c1: seq<Client>, k1: seq<Collection>,
                               t1: nat, c2: seq<Client>, k2: seq<Collection>, t2: nat)
    requires ConversationKey(user.userId) in data && Present(Some(data[ConversationKey(user.userId)].blob))
    ensures ConversationSpec(data, user, c1, k1, t1) == ConversationSpec(data, user, c2, k2, t2)
    ensures ConversationSpec(data, user, c1, k1, t1).1 == data
  {
  }

  /** For an Indi user without a stored conversation, each client and each
      collection is found under its id, the last one of a repeated id
      winning, and no key other than an id is present. */
  lemma IndiConversationKeyed(data: map<string, Entry>, user: User, clients: seq<Client>,
                              collections: seq<Collection>, ttl: nat)
    requires user.isIndiUser
    requires !(ConversationKey(user.userId) in data && Present(Some(data[ConversationKey(user.userId)].blob)))
    ensures var s := ConversationSpec(data, user, clients, collections, ttl).0.value;
            && (forall i :: 0 <= i < |clients| && (forall j :: i < j < |clients| ==> clients[j].id != clients[i].id)
                  ==> Get(s.clients, clients[i].id) == Some(clients[i]))
            && (forall i :: 0 <= i < |collections|
                  && (forall j :: i < j < |collections| ==> collections[j].id != collections[i].id)
                  ==> Get(s.collections, collections[i].id) == Some(collections[i]))
            && (forall k :: (forall j :: 0 <= j < |clients| ==> clients[j].id != k) ==> !Has(s.clients, k))
            && (forall k :: (forall j :: 0 <= j < |collections| ==> collections[j].id != k) ==> !Has(s.collections, k))
  {
    var s := ConversationSpec(data, user, clients, collections, ttl).0.value;
    forall i | 0 <= i < |clients| && (forall j :: i < j < |clients| ==> clients[j].id != clients[i].id)
      ensures Get(s.clients, clients[i].id) == Some(clients[i])
    {
      ByIdLastWins(clients, ClientId, i);
    }
    forall i | 0 <= i < |collections| && (forall j :: i < j < |collections| ==> collections[j].id != collections[i].id)
      ensures Get(s.collections, collections[i].id) == Some(collections[i])
    {
      ByIdLastWins(collections, CollectionId, i);
    }
    forall k | forall j :: 0 <= j < |clients| ==> clients[j].id != k
      ensures !Has(s.clients, k)
    {
      ByIdAbsent(clients, ClientId, k);
    }
    forall k | forall j :: 0 <= j < |collections| ==> collections[j].id != k
      ensures !Has(s.collections, k)
    {
      ByIdAbsent(collections, CollectionId, k);
    }
  }

  /** A new conversation is stored under its key with the session expiry;
      the agent's memory then loads exactly that conversation, and asking
      again returns it without writing. */
  lemma NewConversationStored(data: map<string, Entry>, user: User, clients: seq<Client>,
                              collections: seq<Collection>, ttl: nat, c2: seq<Client>, k2: seq<Collection>, t2: nat)
    requires !(ConversationKey(user.userId) in data && Present(Some(data[ConversationKey(user.userId)].blob)))
    ensures var (r, d) := ConversationSpec(data, user, clients, collections, ttl);
            && r.Ok?
            && d == data[ConversationKey(user.userId) := Entry(ConversationBlob(r.value), Some(ttl))]
            && Memory.LoadSchema(d, user.userId) == r.value
            && ConversationSpec(d, user, c2, k2, t2) == (r, d)
  {
  }

  class ConversationService {
    const store: Store
    /** `SESSION_BUFFER_WAIT_TIME`, read when the service is built. */
    const sessionBufferTime: nat

    constructor(store: Store, sessionBufferTime: nat)
      ensures this.store == store && this.sessionBufferTime == sessionBufferTime
    {
      this.store := store;
      this.sessionBufferTime := sessionBufferTime;
    }

    /** `get_or_create_conversation`, with the provider's client and
        collection lists given. */
    method GetOrCreateConversation(user: User, clients: seq<Client>, collections: seq<Collection>)
      returns (r: Outcome<MemorySchema>)
      modifies store
      ensures (r, store.data) == ConversationSpec(old(store.data), user, clients, collections, sessionBufferTime)
    {
      var stored := store.Get(ConversationKey(user.userId));
      if Present(stored) {
        return DecodeConversation(stored.value);
      }
      var conversation: MemorySchema;
      if user.isIndiUser {
        conversation := MemorySchema([], ById(collections, CollectionId), ById(clients, ClientId));
      } else {
        conversation := MemorySchema([], [], []);
      }
      store.Set(ConversationKey(user.userId), ConversationBlob(conversation), Some(sessionBufferTime));
      return Ok(conversation);
    }
  }
}
