/** The Redis instance the services share, as one map from keys to entries.
    Values are stored as JSON text; a value that decodes is kept decoded,
    one that does not is kept as its raw text. */
module KeyValue {
  import opened Text
  import opened Bursts
  import opened Schema
  import opened UserModel

  datatype Blob =
    | BurstBlob(burst: BurstState)
    | ConversationBlob(schema: MemorySchema)
    | UserBlob(user: User)
    | Corrupt(raw: string)

  /** A stored value and its time to live in seconds (None: no expiry). */
  datatype Entry = Entry(blob: Blob, ttl: Option<nat>)

  /** Python's truthiness of the text `get` returns: only "" is false. */
  predicate Present(b: Option<Blob>) {
    b.Some? && b.value != Corrupt("")
  }

  function BufferKey(userId: string): string { "whatsapp_buffer:" + userId }
  function ConversationKey(userId: string): string { "conversation:" + userId }
  function UserKey(userId: string): string { "user:" + userId }

  /** Each key family is one-to-one, and the three families never meet. */
  lemma KeysSeparate(a: string, b: string)
    ensures BufferKey(a) == BufferKey(b) <==> a == b
    ensures ConversationKey(a) == ConversationKey(b) <==> a == b
    ensures UserKey(a) == UserKey(b) <==> a == b
    ensures BufferKey(a) != ConversationKey(b) && BufferKey(a) != UserKey(b)
    ensures ConversationKey(a) != UserKey(b)
  {
    if BufferKey(a) == BufferKey(b) { assert a == BufferKey(a)[16..]; }
    if ConversationKey(a) == ConversationKey(b) { assert a == ConversationKey(a)[13..]; }
    if UserKey(a) == UserKey(b) { assert a == UserKey(a)[5..]; }
    assert BufferKey(a)[0] == 'w' && ConversationKey(b)[0] == 'c' && UserKey(b)[0] == 'u';
    assert ConversationKey(a)[0] == 'c';
  }

  class Store {
    var data: map<string, Entry>

    constructor(init: map<string, Entry>)
      ensures data == init
    {
      data := init;
    }

    /** The value under `key`, if any. */
    function Lookup(key: string): (r: Option<Blob>)
      reads this
      ensures r.Some? <==> key in data
      ensures r.Some? ==> r.value == data[key].blob
    {
      if key in data then Some(data[key].blob) else None
    }

    /** `GET key`. */
    method Get(key: string) returns (r: Option<Blob>)
      ensures r == Lookup(key)
    {
      r := if key in data then Some(data[key].blob) else None;
    }

    /** `SET key value [EX ttl]`: replaces the value and its expiry. */
    method Set(key: string, blob: Blob, ttl: Option<nat>)
      modifies this
      ensures data == old(data)[key := Entry(blob, ttl)]
    {
      data := data[key := Entry(blob, ttl)];
    }

    /** `EXPIRE key ttl`: sets the expiry of a present key; no effect otherwise. */
    method Expire(key: string, ttl: nat)
      modifies this
      ensures key in old(data) ==> data == old(data)[key := Entry(old(data)[key].blob, Some(ttl))]
      ensures key !in old(data) ==> data == old(data)
    {
      if key in data {
        data := data[key := Entry(data[key].blob, Some(ttl))];
      }
    }

    /** `DEL key`. */
    method Delete(key: string)
      modifies this
      ensures data == old(data) - {key}
    {
      data := data - {key};
    }
  }
}
