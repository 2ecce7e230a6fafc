# Indi collections agent: a verified model of its core

The Indi agent is a WhatsApp assistant that creditors use to register their
clients (debtors) and collections (debts being collected), and to look them
up. This project models in Dafny the parts of the agent that decide what it
stores and what it answers:

- the Jelou channel, which reads a webhook payload into one message fragment;
- the burst aggregator, which folds the fragments of one WhatsApp burst into
  a record kept under `whatsapp_buffer:<user>` and delivers it once;
- the per-user conversation memory kept under `conversation:<user>`: the chat
  history and two insertion-ordered dicts of clients and collections;
- the bulk sync services that validate a batch of client or collection
  records and write them into the creditor's memory;
- the lookup of the chat user (`user:<user>`) and of the conversation;
- the audit trail of messages;
- the provider helpers that work on memory: phone checks, client lookups by
  phone or name, listings, the response and header handling, and the URL
  builders;
- the chat-history helpers (trimming, tool results and calls, the content
  filter) and the apology for a request that the content filter rejected.

The Redis instance is one `KeyValue.Store` object holding a map from keys to
entries. An entry is a value with an optional expiry. A value is one of the
typed records the services write, or `Corrupt(text)` for text that does not
decode. Python dicts are sequences of pairs with distinct keys, in insertion
order (`Dicts`). Raw JSON records are `Values.Value`. A Python exception is
`Raised(message)` of `Text.Outcome`.

Files, one module each: `text.dfy`, `dicts.dfy` and `values.dfy` are shared
helpers. `client.dfy`, `collection.dfy` and `user.dfy` are the models.
`schema.dfy` holds the memory record and its prompt text. `keyvalue.dfy` is
the store. `memory.dfy`, `aggregator.dfy`, `bursts.dfy` and `batch.dfy` are
what the services share. Then come `clientsync.dfy`, `collectionsync.dfy`,
`provider.dfy`, `urlformat.dfy`, `jelou.dfy`, `messages.dfy`, `users.dfy`,
`conversations.dfy`, `toolutil.dfy` and `refusal.dfy`.

Where the code does something other than what its names suggest, the model
follows the code:

- The failure status string is `"interal_failure"`, misspelt as in the code.
- `save_message` writes nothing for an inbound message without fragments,
  because its guard is always true.
- In `phone_validator` the "must start with 9" reply can never be reached.
- `get_all_clients_from_user` reports "0 clientes" for an empty memory (see
  Findings).

## Model

| member | source | states |
|---|---|---|
| ClientModel.FieldNamesDistinct | src/domain/models/client.py:18-29 | the nine names `to_dict` uses are distinct |
| ClientModel.FullPhoneNumber | src/domain/models/client.py:31-32 | the full number is the prefix followed by the number |
| ClientModel.FullName | src/domain/models/client.py:34-35 | the full name has no leading or trailing whitespace |
| ClientModel.FullNameShapes | src/domain/models/client.py:34-35 | for a stripped name and a stripped surname it is `name + " " + surname`; with an empty surname it is the name |
| ClientModel.ToDict | src/domain/models/client.py:18-29 | the keys are exactly the nine field names, in order |
| ClientModel.ToDictGets | src/domain/models/client.py:18-29 | the dict of a client holds each of the nine fields' values under its name, `None` as null |
| ClientModel.FromFields | src/domain/models/client.py:7-16 | validation succeeds only with `name` and `phone_number`; a missing `id` defaults to "" |
| ClientModel.FromFieldsPhone | src/domain/models/client.py:7-32 | a client validated from a dict that gives a prefix has that prefix followed by the dict's number as its full phone number |
| ClientModel.ToDictRoundTrip | src/domain/models/client.py:7-29 | validating a client's dict gives back the same client |
| ClientModel.Defaults | src/domain/models/client.py:8-16 | a record with only a name and a number gets id "", code "PE", prefix "+51", creditor "" and no surname, email or raw id |
| CollectionModel.FieldNamesDistinct | src/domain/models/collection.py:27-46 | the 17 names `to_dict` uses are distinct |
| CollectionModel.ToDict | src/domain/models/collection.py:27-46 | the keys are exactly the 17 declared fields, in order |
| CollectionModel.FromFields | src/domain/models/collection.py:7-24 | validation needs `id`, `client_id`, `amount` and the other required fields, and keeps the given id |
| CollectionModel.ToDictRoundTrip | src/domain/models/collection.py:7-46 | validating a collection's dict gives back the same collection |
| CollectionModel.ToDictGets | src/domain/models/collection.py:7-46 | the dict of a collection holds each field's value under its name |
| CollectionModel.ValidatesTo | src/domain/models/collection.py:7-46 | a dict holding each field of a collection validates to exactly that collection |
| CollectionModel.RequiredHaveNoDefault | src/domain/models/collection.py:8-19 | dropping any field without a default makes validation fail |
| CollectionModel.Defaults | src/domain/models/collection.py:20-24 | missing optional fields give payment date "", total quotas 1, quota number 1 and active true |
| UserModel.UserType.Value | src/domain/models/user.py:4-7 | each user type's value is a non-empty string |
| UserModel.ValueInjective | src/domain/models/user.py:4-7 | two user types have the same value only when they are the same type |
| UserModel.GetType | src/domain/models/user.py:17-23 | an enum gives its value, a non-empty string gives itself, anything else gives "anonymous" |
| UserModel.DefaultIsAnonymous | src/domain/models/user.py:9-15 | a default user is anonymous, not an Indi user and not an enterprise |
| Schema.ClientBlock | src/ai/memory.py:60-74 | a client's block starts with its id line |
| Schema.CollectionBlock | src/ai/memory.py:24-55 | a collection's block starts with its id line |
| Schema.ClientBlocks | src/ai/memory.py:58-75 | one block per client, block `i` being client `i`'s |
| Schema.CollectionBlocks | src/ai/memory.py:22-56 | one block per collection, block `i` being collection `i`'s |
| Schema.ClientsText | src/ai/memory.py:58-75 | the clients text is empty exactly when there are no clients, and otherwise begins with the first client's block |
| Schema.CollectionsText | src/ai/memory.py:22-56 | the collections text is empty exactly when there are no collections, and otherwise begins with the first collection's block |
| Schema.ClientsTextAppend | src/ai/memory.py:58-75 | a client under a new key appends a newline and its block to the text |
| Schema.CollectionsTextAppend | src/ai/memory.py:22-56 | a collection under a new key appends a newline and its block to the text |
| KeyValue.KeysSeparate | src/domain/services/aggregator.py:16-24 | the buffer, conversation and user key families are each one-to-one and never overlap |
| KeyValue.Store.Lookup | src/domain/services/aggregator.py:25 | a key has a value exactly when it is stored, and the value is the stored one |
| KeyValue.Store.Set | src/ai/memory.py:212 | SET replaces the value and the expiry of one key |
| KeyValue.Store.Expire | src/ai/memory.py:213 | EXPIRE resets the expiry of a present key and ignores an absent one |
| KeyValue.Store.Delete | src/domain/services/aggregator.py:82 | DEL removes exactly that key |
| Memory.FromJson | src/ai/memory.py:77-90 | a stored conversation decodes to itself; anything else gives the empty schema |
| Memory.LoadSchema | src/ai/memory.py:109-114 | an absent or undecodable conversation key loads the empty schema, otherwise the stored one |
| Memory.SavedData | src/ai/memory.py:186-213 | save writes the schema with the session expiry, refreshes the user key's expiry, and changes no other key |
| Memory.ReloadAfterSave | src/ai/memory.py:186-213 | loading what save wrote gives back the same messages, clients and collections |
| Memory.FirstWithId | src/ai/memory.py:141-147 | the scan finds the first client with that id, or reports that none has it |
| Memory.ReplaceClient | src/ai/memory.py:137-150 | afterwards the client is under its id, the first client with that id has gone, and every other key keeps its client |
| Memory.KeyedUnique | src/ai/memory.py:137-150 | clients stored under their own ids never repeat an id |
| Memory.ReplaceClientKeyed | src/ai/memory.py:137-150 | on clients keyed by id, adding a client moves it to the end, and the clients stay keyed by id |
| Memory.RedisMemory.constructor | src/ai/memory.py:98-107 | a new memory holds the conversation loaded from its user's key |
| Memory.RedisMemory.AddUserMessage | src/ai/memory.py:119-132 | appends one `user` entry with the content and keeps earlier messages |
| Memory.RedisMemory.AddAiMessage | src/ai/memory.py:171-184 | appends one `assistant` entry with the content and keeps earlier messages |
| Memory.RedisMemory.AddClient | src/ai/memory.py:137-150 | the clients become `ReplaceClient` of the old ones; nothing else changes |
| Memory.RedisMemory.AddCollection | src/ai/memory.py:155-161 | inserts or replaces the collection under its id; nothing else changes |
| Memory.RedisMemory.DeleteCollection | src/ai/memory.py:163-169 | removes a non-empty id; an empty id changes nothing |
| Memory.RedisMemory.Save | src/ai/memory.py:186-213 | the store becomes `SavedData`, and reloading gives the conversation back |
| Aggregator.Status | src/domain/services/aggregator.py:67-87 | "waiting" exactly for a waiting result, "complete" exactly for a complete one, and the misspelt "interal_failure" exactly for a failure |
| Aggregator.CurrentState | src/domain/services/aggregator.py:25-32 | a missing or undecodable record starts from the empty state |
| Aggregator.Incoming | src/domain/services/aggregator.py:33-36 | a text gives itself as a success; an image gives its OCR reply; an image without OCR text raises |
| Aggregator.Truthy | src/domain/services/aggregator.py:46 | an empty OCR context reads as None |
| Aggregator.Payload | src/domain/services/aggregator.py:42-48 | the listed entry holds the text on success and the OCR context on failure, with the success flag and the type |
| Aggregator.Fold | src/domain/services/aggregator.py:38-63 | the fragment is listed under its timestamp and no other entry changes; a failure is set once and keeps its text; a first failure takes the fragment's timestamp, a later one keeps the earlier timestamp; without a failure the buffer gains the stripped text |
| Aggregator.Step | src/domain/services/aggregator.py:33-63 | a fragment that cannot be read leaves the record unchanged; otherwise it is listed under its timestamp and the record is a failure exactly when it was one or this fragment failed |
| Aggregator.BufferSpec | src/domain/services/aggregator.py:22-65 | `buffer_message` raises exactly when reading the fragment raises |
| Aggregator.BufferSpecFrame | src/domain/services/aggregator.py:65 | only the sender's buffer key is written, without an expiry |
| Aggregator.BufferSpecOk | src/domain/services/aggregator.py:29-65 | a readable fragment is folded into the stored state and written back |
| Aggregator.Classify | src/domain/services/aggregator.py:77-87 | a stored record is never "waiting"; it is a failure exactly when the failure flag is set, with the stripped buffer and the listed fragments |
| Aggregator.AggregateSpec | src/domain/services/aggregator.py:67-87 | "waiting" exactly when no record is present, and then nothing is written; a delivered record's key is deleted |
| Aggregator.BufferSpecIsStep | src/domain/services/aggregator.py:22-65 | the record a successful buffer writes is the one `Step` computes |
| Aggregator.RunOfTexts | src/domain/services/aggregator.py:51-56 | a burst of texts aggregates to their stripped, non-blank texts joined by single spaces, with no failure |
| Aggregator.TextStep | src/domain/services/aggregator.py:51-56 | a text on a record without a failure appends its stripped text to the buffer |
| Aggregator.FailureSticky | src/domain/services/aggregator.py:57-63 | once a failure is recorded, no later fragment clears it |
| Aggregator.FailureFreezesBuffer | src/domain/services/aggregator.py:49-58 | after a failure, later successful fragments are listed but leave the buffer, its timestamp and the failure context as they were |
| Aggregator.FailingImage | src/domain/services/aggregator.py:43-63 | after an image whose OCR failed, whatever came before, the next read is a failure carrying the image's stripped text and its OCR context; the image is listed with its context and earlier entries stay |
| Aggregator.SingleDelivery | src/domain/services/aggregator.py:71-82 | right after a delivery the next read is "waiting" |
| Aggregator.SendersIsolated | src/domain/services/aggregator.py:24 | buffering for one sender does not change what a read for another sender returns |
| Aggregator.ReadsOnlyOwnKey | src/domain/services/aggregator.py:70-80 | a read depends only on the entry under the sender's key |
| Aggregator.BufferThenAggregate | src/domain/services/aggregator.py:65-87 | a read right after a successful buffer delivers the record just written and removes it |
| Aggregator.DeliversStored | src/domain/services/aggregator.py:75-87 | a stored record is delivered as `Classify` reports it |
| Aggregator.ReadFragment | src/domain/services/aggregator.py:33-36 | the method's result is `Incoming` of the fragment |
| Aggregator.NextState | src/domain/services/aggregator.py:38-63 | the record the method builds is `Fold` of the old one |
| Aggregator.AggregatorService.BufferMessage | src/domain/services/aggregator.py:22-65 | the store becomes `BufferSpec`'s store on success and is unchanged when reading the fragment raises |
| Aggregator.AggregatorService.AggregateIfReady | src/domain/services/aggregator.py:67-87 | the result and the new store are `AggregateSpec`'s |
| Batches.Missing | src/domain/services/clients.py:26-28 | both services' `_validate_data`: exactly the required fields the record lacks, in required order; empty exactly when the record is complete |
| Batches.ErrorsOf | src/domain/services/clients.py:34-42 | no errors exactly when every record is complete |
| Batches.ErrorsSound | src/domain/services/clients.py:34-42 | each error names an incomplete record by its position with its missing fields, in increasing position order |
| Batches.ErrorsCoverIncomplete | src/domain/services/clients.py:34-42 | every incomplete record is reported with its own missing fields |
| Batches.LastUserPhone | src/domain/services/clients.py:43 | with no complete record the user is "" |
| Batches.LastUserPhoneIsLast | src/domain/services/clients.py:43 | the user is the `userPhoneNumber` of the last complete record |
| Batches.StepsSomeIff | src/domain/services/clients.py:64-74 | a loop whose every pass succeeds exactly on a valid item succeeds exactly when every item is valid |
| ClientSync.BatchEntry | src/domain/services/clients.py:44-55 | the entry has exactly the nine client field names; its id is the full phone key; name, surname, code, prefix, number and email are the record's; the creditor is the record's `userId` and the raw id its `id` |
| ClientSync.Batch | src/domain/services/clients.py:44-55 | the batch never holds more entries than there are records |
| ClientSync.BatchClient | src/domain/services/clients.py:44-55 | a validated batch client has the key as id, the key is its full phone number, and its raw id is the record's `id` |
| ClientSync.BatchLastWins | src/domain/services/clients.py:44-55 | a later record with the same phone key replaces the earlier one |
| ClientSync.BatchEntriesKeyed | src/domain/services/clients.py:44-55 | every batch entry carries its own key as its `id` |
| ClientSync.Retag | src/domain/services/clients.py:81-87 | a collection of this client gets its phone and full name; no other field changes, and another client's collections are untouched |
| ClientSync.RetagAll | src/domain/services/clients.py:81-87 | every collection is retagged, and the keys stay the same |
| ClientSync.RetagAllIdempotent | src/domain/services/clients.py:81-87 | retagging twice for the same client is retagging once |
| ClientSync.AddOneKeeps | src/domain/services/clients.py:64-74 | adding a client with another id leaves an earlier client in place |
| ClientSync.AddOne | src/domain/services/clients.py:64-72 | the client ends up under its id and the history is kept; the collections are retagged exactly when a stored client already has the client's raw id, and otherwise stay as they were |
| ClientSync.ClientStep | src/domain/services/clients.py:64-73 | a pass succeeds exactly when the entry validates as a client |
| ClientSync.ApplyClients | src/domain/services/clients.py:64-74 | the loop succeeds exactly when every entry validates as a client |
| ClientSync.ApplyClientsLast | src/domain/services/clients.py:64-74 | a successful loop is the loop over all but the last entry followed by adding the last client |
| ClientSync.ApplyClientsStoresAll | src/domain/services/clients.py:64-74 | with distinct string ids, every entry validates and ends up in memory under its own id |
| ClientSync.StoresEarlier | src/domain/services/clients.py:64-74 | with distinct string ids, a client added before the last one is still under its id at the end |
| ClientSync.AddClientsSpec | src/domain/services/clients.py:30-79 | rejected exactly when a record is incomplete, with every error; with no errors, nothing is stored exactly when the last user's memory has no clients, and otherwise the batch is stored unless a client fails validation; the store changes only when the batch is stored; the result is the batch keys |
| ClientSync.AddClientsStoresBatch | src/domain/services/clients.py:62-79 | after a stored batch, reloading the user's memory finds every batch client under its key |
| ClientSync.StoredRawId | src/domain/services/clients.py:68-72 | the scan reports whether a stored client has the raw id |
| ClientSync.UpdateClientInCollection | src/domain/services/clients.py:81-87 | memory's collections become `RetagAll` of the old ones; nothing else changes |
| ClientSync.AddEntry | src/domain/services/clients.py:64-73 | one pass validates the entry and leaves memory as `ClientStep` says; a rejected entry changes nothing |
| ClientSync.ApplyBatch | src/domain/services/clients.py:64-74 | the client loop succeeds exactly when `ApplyClients` does, leaving its memory |
| ClientSync.CollectBatch | src/domain/services/clients.py:34-55 | the loop builds the batch dict, the errors and the user as specified |
| ClientSync.BatchStep | src/domain/services/clients.py:44-55 | one more complete record puts its entry under its key; an incomplete one leaves the batch as it was |
| ClientSync.ErrorsStep | src/domain/services/clients.py:34-42 | one more incomplete record appends its error with its position and missing fields |
| ClientSync.UserStep | src/domain/services/clients.py:43 | one more complete record makes its `userPhoneNumber` the user |
| ClientSync.AddClients | src/domain/services/clients.py:30-79 | the result and the new store are `AddClientsSpec`'s |
| CollectionSync.UserPhoneRequired | src/domain/services/collections.py:10-14 | `userPhoneNumber` is a required field |
| CollectionSync.EntryNamesDistinct | src/domain/services/collections.py:46-64 | the names of the built entry are distinct |
| CollectionSync.BatchEntry | src/domain/services/collections.py:46-64 | each entry field is the matching record field, and the entry's `id` is the record's |
| CollectionSync.Batch | src/domain/services/collections.py:46-65 | the batch never holds more entries than there are records |
| CollectionSync.UnhashableSticky | src/domain/services/collections.py:36-65 | an id that cannot be a dict key stops the whole batch |
| CollectionSync.AnyUnhashableExists | src/domain/services/collections.py:36-65 | the batch stops exactly when some complete record has a list or dict id |
| CollectionSync.BatchLastWins | src/domain/services/collections.py:46-65 | a later record with the same id replaces the earlier one |
| CollectionSync.BatchEntriesKeyed | src/domain/services/collections.py:46-65 | every batch entry carries its own key as its `id` |
| CollectionSync.CollectionStep | src/domain/services/collections.py:74-82 | a pass succeeds exactly when the entry validates |
| CollectionSync.ApplyCollections | src/domain/services/collections.py:74-87 | the loop succeeds exactly when every entry validates as a collection |
| CollectionSync.ApplyEffect | src/domain/services/collections.py:77-82 | an active collection is stored and its id recorded; an inactive one is deleted |
| CollectionSync.IdsFromEntries | src/domain/services/collections.py:74-87 | every recorded id is the id of some entry |
| CollectionSync.ApplyCollectionsEffect | src/domain/services/collections.py:74-87 | with distinct ids, each active collection is stored and recorded and each inactive one is absent |
| CollectionSync.ApplyCollectionsIds | src/domain/services/collections.py:74-87 | a successful loop records exactly the ids of the entries that validate to an active collection, in entry order |
| CollectionSync.AddCollectionsSpec | src/domain/services/collections.py:31-87 | a bad id stops the batch; otherwise rejected exactly when a record is incomplete, with every error; with no errors, nothing is stored exactly when the last user's memory has no collections, and otherwise the batch is stored unless a collection fails validation; the store changes only when the batch is stored; a stored batch returns the ids of its active collections, in batch order |
| CollectionSync.AddCollectionsApplied | src/domain/services/collections.py:72-87 | after a stored batch, reloading finds each active batch collection under its id and no inactive one |
| CollectionSync.CollectBatch | src/domain/services/collections.py:36-65 | the loop detects a bad id, and otherwise builds the batch dict and the errors as specified |
| CollectionSync.ApplyBatch | src/domain/services/collections.py:74-87 | the loop succeeds exactly when `ApplyCollections` does, leaving its memory and ids |
| CollectionSync.AddCollections | src/domain/services/collections.py:31-87 | the result and the new store are `AddCollectionsSpec`'s |
| Provider.HandleResponse | src/integrations/indi/provider.py:34-40 | raises for any status other than 200 and 204; 204 gives None; 200 gives the body |
| Provider.PutAllGet | src/integrations/indi/provider.py:29-31 | after putting a dict's pairs, its keys have its values and other keys keep theirs |
| Provider.BuildHeaders | src/integrations/indi/provider.py:27-32 | the JSON content type, then each given header in order |
| Provider.BuildHeadersGet | src/integrations/indi/provider.py:27-32 | a given header wins; otherwise only the content type is present |
| Provider.PhoneCheck | src/integrations/indi/provider.py:380-397 | valid exactly for prefix "+51" or "" with 9 characters; a wrong prefix and a wrong length each get their reply; the "start with 9" reply is never given |
| Provider.PhoneCheckExamples | src/integrations/indi/provider.py:383-397 | "+510" with a 9-digit number gets the last reply; "+51" with a number starting with 8 is valid; "" with 5 digits gets the prefix reply |
| Provider.PhoneMessage | src/integrations/indi/provider.py:383-397 | names the prefix and number it checked, then: valid for "+51" or "" with nine characters; the prefix reply for a prefix not starting with "+51"; the length reply for a longer "+51…" prefix or a "+51" number that is not nine characters starting with 9; both replies for a longer "+51…" prefix with nine characters starting with 9 |
| Provider.NormalizePhone | src/integrations/indi/provider.py:306-312 | only a 12-character "+51" number or a 9-character number is allowed, and it becomes "+51" and the last nine characters |
| Provider.NormalizePhoneIdempotent | src/integrations/indi/provider.py:306-312 | normalising a normalised number changes nothing |
| Provider.LookupByPhone | src/integrations/indi/provider.py:303-323 | refused exactly when the number is not allowed; registered exactly when its normalised form is a client key |
| Provider.NameMatchesFirstChar | src/integrations/indi/provider.py:329-336 | a client matches exactly when its lowercased name or surname starts with the query's first character |
| Provider.MatchByName | src/integrations/indi/provider.py:332-336 | the scan raises exactly when some client has no surname |
| Provider.MatchByNameMembers | src/integrations/indi/provider.py:332-336 | the matches are exactly the matching clients, at most one per client |
| Provider.MatchByNameRaisedSticky | src/integrations/indi/provider.py:332-336 | one client without a surname makes the whole scan raise |
| Provider.NameSearch | src/integrations/indi/provider.py:329-330 | an empty query raises |
| Provider.GetClientsByName | src/integrations/indi/provider.py:325-343 | the loop's result is `NameSearch` |
| Provider.AllClientsMessage | src/integrations/indi/provider.py:345-355 | as written: the reply always reports the number of clients found |
| Provider.AllClientsEmptyStillFound | src/integrations/indi/provider.py:349-355 | no clients still gives "Se encontraron 0 clientes" and never the "none registered" text |
| Provider.AllClientsMessageIntended | src/integrations/indi/provider.py:349-355 | the "none registered" text exactly when there are no clients; otherwise the count |
| Provider.Summarize | src/integrations/indi/provider.py:363-372 | each of the summary's ten fields is the collection's field of the same meaning; quotas are "quota/total" |
| Provider.SummarizeAll | src/integrations/indi/provider.py:361-372 | one summary per stored collection, under the same key, in order |
| Provider.AllCollectionsMessage | src/integrations/indi/provider.py:373-378 | the "none registered" text exactly when there are no collections; otherwise the count of collections followed by the listing of their summaries |
| Provider.PeruPhone | src/integrations/indi/provider.py:220-221 | the result starts with "+51", and a phone that already has it is unchanged |
| Provider.PeruPhoneIdempotent | src/integrations/indi/provider.py:220-221 | prefixing twice is prefixing once |
| Provider.CollectionRegister.constructor | src/domain/models/collection_register.py:4-17 | the form holds the given name, phone, quotas, indefinite flag and creditor |
| Provider.CollectionRegister.Preprocess | src/integrations/indi/provider.py:218-221 | an indefinite collection gets -1 quotas and the phone gets "+51"; no other field changes |
| UrlFormat.UrlWithOptionalParam | src/utils/requests/formater.py:5-19 | the base URL, plus `?name=value` or `&name=value` only when the value is non-empty |
| UrlFormat.JoinPath | src/utils/requests/formater.py:27 | the base without trailing slashes, one slash, then the path without leading slashes |
| UrlFormat.JoinPathPlain | src/utils/requests/formater.py:27 | a plain base and a plain path are joined by exactly one slash |
| UrlFormat.ReplaceAbsent | src/utils/requests/formater.py:23-26 | a text with no occurrence of the pattern is unchanged |
| UrlFormat.SubstitutePath | src/utils/requests/formater.py:23-26 | a template without a colon is unchanged by any path variables |
| UrlFormat.WithoutNone | src/utils/requests/formater.py:29-31 | exactly the parameters whose value is not None, in order |
| UrlFormat.WithoutNoneAllNone | src/utils/requests/formater.py:29-31 | parameters that are all None leave nothing to encode |
| UrlFormat.DynamicUrl | src/utils/requests/formater.py:22-32 | the URL starts with the joined path; it is exactly that path without query parameters, and otherwise the path, "?" and the encoding of the parameters that are not None |
| UrlFormat.AllNoneQuery | src/utils/requests/formater.py:29-31 | parameters that are all None still leave a bare "?" plus the encoding of nothing |
| UrlFormat.BuildDynamicUrl | src/utils/requests/formater.py:22-32 | the loop's URL is `DynamicUrl` |
| Messages.EnsureJsonSerializable | src/domain/services/messages.py:22-28 | the result always encodes; data that encodes is returned as it is, anything else as its string form |
| Messages.EnsureJsonSerializableIdempotent | src/domain/services/messages.py:22-28 | making data encodable twice is making it encodable once |
| Messages.BuildModelData | src/domain/services/messages.py:30-34 | a dict with exactly the keys "tools" and "message", holding the tools and the message |
| Messages.BuildModelDataSerializable | src/domain/services/messages.py:30-34 | the dict encodes exactly when both parts do, and is never empty |
| Messages.MsgType | src/domain/services/messages.py:38 | a message's own non-empty source; "TEXT" for a plain string or an empty source |
| Messages.MsgText | src/domain/services/messages.py:39 | the message's own non-empty text; otherwise an outcome's string form, and "" for anything else |
| Messages.BaseSender | src/domain/services/messages.py:40 | an outcome is sent by "ia"; otherwise the message's sender, else its user id, else the given user id |
| Messages.ContextOf | src/domain/services/messages.py:37-53 | `type_user` is the user's `get_type`; model data is kept only when truthy, and then it encodes |
| Messages.AnyFailedImageExists | src/domain/services/messages.py:57-58 | some fragment is a failed image exactly when the loop meets one |
| Messages.FanOutRecords | src/domain/services/messages.py:56-79 | one record per fragment, in order, carrying that fragment's type, text, media and OCR context |
| Messages.StickySender | src/domain/services/messages.py:57-58 | from the first failed image on, every record is sent by "ocr" |
| Messages.OutcomeSavesOne | src/domain/services/messages.py:81-101 | an outcome is saved as exactly one record sent by "ia", of the message's type, with the current date |
| Messages.InboundWithoutFragments | src/domain/services/messages.py:55-79 | an inbound message writes one record per fragment, so none without fragments |
| Messages.SavedRecords | src/domain/services/messages.py:36-101 | an "ia" message gives one record sent by "ia"; any other gives one record per fragment; every record has the call's invoke id and user id |
| Messages.AuditLog.constructor | src/domain/repositories/messages.py:12-33 | a new log holds no records |
| Messages.AuditLog.Create | src/domain/repositories/messages.py:35-59 | one more record at the end |
| Messages.SaveMessage | src/domain/services/messages.py:36-101 | the log gains exactly the records `SavedRecords` computes |
| Jelou.ParseMessageType | src/channels/jelou.py:18-23 | a known value gives its member; any other value raises |
| Jelou.DataOf | src/channels/jelou.py:64-70 | a missing `data` reads as `{}`; a `data` that is not a dict raises |
| Jelou.TextFragment | src/channels/jelou.py:145-149 | a text fragment with text exactly when the value is a string |
| Jelou.ParseText | src/channels/jelou.py:64-65 | the text field of `data`, None when missing |
| Jelou.ParseAudio | src/channels/jelou.py:67-70 | the transcribed text and the media URL of `data` |
| Jelou.FormatPhone | src/channels/jelou.py:96-98 | a phone that starts with "+51" once spaces are gone becomes "+51 " followed by that text with each "+51" taken out in one left-to-right pass; any other is unchanged apart from spaces; the only space left is the one after "+51"; no character is new but that space |
| Jelou.RemoveSpaces | src/channels/jelou.py:96 | removing every space leaves no space |
| Jelou.FormatPhoneInnerPrefix | src/channels/jelou.py:96-98 | "+51++5151" formats to "+51 +51": removing "+51" in one pass can leave a "+51" after the head |
| Jelou.ContactPhone | src/channels/jelou.py:95-98 | a contact that is not a dict raises; a missing `phones` reads as an empty number; an empty list raises; otherwise the first entry's `phone`, formatted, and raising when it is not a string |
| Jelou.ContactSentence | src/channels/jelou.py:94-99 | raises exactly when the phone cannot be read; otherwise the lead, then the contact's `name` as `str` shows it, then " y numero de celular: " and the formatted phone |
| Jelou.ContactSentencesItems | src/channels/jelou.py:94-99 | when the loop completes, sentence `i` is contact `i`'s |
| Jelou.OutcomesItems | src/channels/jelou.py:94-99 | when the loop over contacts completes, the string at each position is what that contact gives |
| Jelou.OutcomesFirstRaise | src/channels/jelou.py:94-99 | once the earlier contacts have their sentences, the first contact that raises decides the error of the whole loop |
| Jelou.JoinedSentences | src/channels/jelou.py:100 | the joined text is empty exactly when there are no sentences, and starts with the first one |
| Jelou.ContactsTextShape | src/channels/jelou.py:93-100 | a contact list is read in full or not at all; no contacts give "" |
| Jelou.ParseImage | src/channels/jelou.py:72-91 | only an enterprise user's image sets the flag; a user who is neither a creditor nor an enterprise gets the refusal text |
| Jelou.ParseFile | src/channels/jelou.py:102-118 | the flag is set exactly for an enterprise user; anyone else gets the refusal text |
| Jelou.Dispatch | src/channels/jelou.py:120-130 | succeeds exactly when the chosen parser does; text, audio and contacts give a text fragment; text and contacts give no media URL, audio its own; the flag is set only by an enterprise user's image or file |
| Jelou.UnauthorizedImageRejected | src/channels/jelou.py:72-91 | an image from a user who is neither a creditor nor an enterprise makes the aggregator raise |
| Jelou.BuildMessage | src/channels/jelou.py:155-159 | the message builds exactly when the sender is a string, the text is present, the flag is a boolean and the media URL is a string or null; the message carries that URL |
| Jelou.Deliver | src/channels/jelou.py:148-190 | "waiting" stays waiting; only a failure writes audit records; a complete burst is a message from the sender |
| Jelou.Front | src/channels/jelou.py:135-145 | the sender is present and non-empty, the type is read and the fragment is the dispatcher's |
| Jelou.Buffered | src/channels/jelou.py:148-186 | a fragment the aggregator rejects changes nothing; otherwise the result comes from the sender |
| Jelou.IgnoredPayload | src/channels/jelou.py:141-142 | a missing or empty sender returns None and changes nothing |
| Jelou.FlagSticky | src/channels/jelou.py:72-118 | once set, the enterprise-file flag stays set, and only an enterprise user sets it |
| Jelou.ParseSpec | src/channels/jelou.py:132-190 | only a failed burst writes audit records: the earlier records stay, then the rejected input, then one "ia" record holding the failure text |
| Jelou.CompleteBecomesMessage | src/channels/jelou.py:155-159 | a complete burst becomes a message from the payload's sender, of its type, with the final text |
| Jelou.JelouChannel.constructor | src/channels/jelou.py:26-32 | a new channel has the enterprise-file flag unset |
| Jelou.JelouChannel.ParseContactsMessage | src/channels/jelou.py:93-100 | the loop's text is `ContactsText` |
| Jelou.JelouChannel.Dispatcher | src/channels/jelou.py:120-130 | the result is `Dispatch`'s, and the flag is set only as `Dispatch` says |
| Jelou.JelouChannel.ParseMessage | src/channels/jelou.py:132-190 | the result, the store, the audit log and the flag are `ParseSpec`'s |
| Jelou.JelouChannel.BufferAndAggregate | src/channels/jelou.py:148-186 | the result and the new state are `Buffered`'s |
| Jelou.JelouChannel.DeliverAggregated | src/channels/jelou.py:155-186 | the result and the new state are `Deliver`'s |
| Users.DecodeUser | src/domain/services/users.py:23-28 | decoding fails exactly for text that is not JSON |
| Users.NewUser | src/domain/services/users.py:35-49 | the new user is consistent, an Indi user exactly when there is an account, an enterprise exactly for an enterprise account, and named after the account or "Unknown" |
| Users.AccountFor | src/domain/services/users.py:30-34 | a forced-anonymous user has no account lookup; otherwise an empty user id raises, and any other gets the provider's answer |
| Users.UserSpec | src/domain/services/users.py:22-56 | a call that raises writes nothing; the only write is the new user under its key with the session expiry |
| Users.StoredUserWins | src/domain/services/users.py:23-28 | a stored user is returned as it is, whatever the flag and the account, and nothing is written |
| Users.NewUserClassified | src/domain/services/users.py:30-55 | a new user is ENTERPRISE, ACREETOR or ANONYMOUS by its account, anonymous when forced, and stored with the session expiry |
| Users.GetOrCreateStable | src/domain/services/users.py:22-56 | asking again returns the same user and writes nothing |
| Users.UserService.GetOrCreateUser | src/domain/services/users.py:22-56 | the result and the new store are `UserSpec`'s |
| Conversations.DecodeConversation | src/domain/services/conversation.py:16-18 | decoding fails exactly for text that is not JSON |
| Conversations.IdPairs | src/domain/services/conversation.py:23-28 | one (id, item) pair per item, in order |
| Conversations.ByIdLastWins | src/domain/services/conversation.py:23-28 | in the dict built by id, each id holds the last item with that id |
| Conversations.ByIdAbsent | src/domain/services/conversation.py:23-28 | an id no item carries is not a key |
| Conversations.NewConversation | src/domain/services/conversation.py:20-35 | a new conversation has no messages; a non-Indi user's is empty |
| Conversations.ConversationSpec | src/domain/services/conversation.py:15-38 | a call that raises writes nothing; the only write is a new conversation with no history, under the user's key, with the session expiry |
| Conversations.StoredConversationWins | src/domain/services/conversation.py:16-18 | a stored conversation is returned whatever the provider lists, and nothing is written |
| Conversations.IndiConversationKeyed | src/domain/services/conversation.py:20-29 | each client and collection is under its id, the last of a repeated id winning, and no other key is present |
| Conversations.NewConversationStored | src/domain/services/conversation.py:37 | a new conversation is stored with the session expiry, memory then loads it, and asking again returns it without writing |
| Conversations.ConversationService.GetOrCreateConversation | src/domain/services/conversation.py:15-38 | the result and the new store are `ConversationSpec`'s |
| ToolUtil.TrimMessages | src/utils/tools/util.py:3-10 | a suffix of the history, of length min(n, 25) |
| ToolUtil.TrimIdempotent | src/utils/tools/util.py:6-10 | trimming twice is trimming once |
| ToolUtil.SliceStart | src/utils/tools/util.py:15 | where `s[start:]` begins, including negative and too-large starts |
| ToolUtil.ToolContentsAppend | src/utils/tools/util.py:15-18 | the tool contents of two pieces are those of the first followed by those of the second |
| ToolUtil.ToolContentsMembers | src/utils/tools/util.py:15-18 | a value is a tool content exactly when a tool message holds it |
| ToolUtil.GetToolsResult | src/utils/tools/util.py:13-18 | the loop gives the contents of the tool messages from the index on, in order |
| ToolUtil.Subscript | src/utils/tools/util.py:28-31 | a subscript succeeds exactly on a dict holding the key |
| ToolUtil.Invocation | src/utils/tools/util.py:28-31 | an entry exists only for a call with a `function` |
| ToolUtil.Invocations | src/utils/tools/util.py:27-31 | one entry per tool call when none raises |
| ToolUtil.InvocationsItems | src/utils/tools/util.py:26-32 | the log of the calls exists exactly when every call has a `function` with `name` and `arguments`, and its i-th entry is the i-th call's |
| ToolUtil.CallsOf | src/utils/tools/util.py:25-27 | only an AI message with `tool_calls` contributes calls |
| ToolUtil.FlattenStep | src/utils/tools/util.py:24-31 | one more message appends its calls unless the log so far, or the message, raised |
| ToolUtil.FlattenRaisedSticky | src/utils/tools/util.py:24-31 | an error in the first piece of history is the one the whole raises |
| ToolUtil.FlattenAppend | src/utils/tools/util.py:24-31 | the log of two pieces is the first's log followed by the second's; an error in the second is the whole's |
| ToolUtil.ToolsLogWithoutCalls | src/utils/tools/util.py:24-31 | a history without AI tool calls logs nothing |
| ToolUtil.GetToolsLog | src/utils/tools/util.py:21-33 | the loop gives `ToolsLog` of the history from the index on |
| ToolUtil.LogCalls | src/utils/tools/util.py:27-31 | the inner loop gives `Invocations` of the calls |
| ToolUtil.InvocationsFirstRaise | src/utils/tools/util.py:27-31 | the first call that raises decides the error |
| ToolUtil.PromptFilterFallback | src/utils/tools/util.py:44-49 | without results of its own, the first prompt entry's filter results are used |
| ToolUtil.AnyFlags | src/utils/tools/util.py:50-54 | true exactly when some entry flags content |
| ToolUtil.Flagged | src/utils/tools/util.py:44-54 | a message whose filter results raise raises; a message is flagged exactly when its filter results are a non-empty dict with some flagged entry |
| ToolUtil.FilteredStep | src/utils/tools/util.py:42-55 | one more message is kept after the result so far when flagged, unless the result so far raised |
| ToolUtil.FilteredRaisedSticky | src/utils/tools/util.py:42-55 | an error in the first part is the one the whole raises |
| ToolUtil.FilteredMessages | src/utils/tools/util.py:42-55 | the result is no longer than the history and holds only AI messages of the history |
| ToolUtil.FilteredMembers | src/utils/tools/util.py:42-55 | the result holds exactly the flagged AI messages, and never more entries than the history |
| ToolUtil.CheckFlagged | src/utils/tools/util.py:44-54 | the scan of one AI message's filter results gives `Flagged`: raised, flagged or not |
| ToolUtil.FilteredBadWordsFromAi | src/utils/tools/util.py:35-55 | the loop's result is `FilteredMessages` |
| Refusal.DetailLabel | src/ai/refusal.py:34-38 | a detail gives a label exactly when it is flagged `True` and its id names a blocklist, and the label is that blocklist's |
| Refusal.CollectLabels | src/ai/refusal.py:34-38 | raises exactly when some detail raises, and gives at most one label per detail |
| Refusal.CollectLabelsMembers | src/ai/refusal.py:34-38 | a label is collected exactly when some detail gives it, at most one per detail |
| Refusal.CollectLabelsRaises | src/ai/refusal.py:34-38 | a detail that raises makes the whole comprehension raise |
| Refusal.ProcessCustomBlocklists | src/ai/refusal.py:24-33 | a non-dict, a value without details, or one not flagged gives no labels |
| Refusal.CustomBlocklistMembers | src/ai/refusal.py:24-38 | with flagged details, the labels are exactly those of the details flagged `True` naming a blocklist; a detail that is not a dict raises |
| Text.FilterMapMembers | src/ai/refusal.py:40-51 | a value is kept exactly when some item gives it |
| Text.FilterMap | src/ai/refusal.py:40-51 | at most one value per item |
| Refusal.ProcessGenericFilters | src/ai/refusal.py:40-51 | at most one label per filter result |
| Refusal.GenericMembers | src/ai/refusal.py:40-51 | a generic label is reported exactly when a flagged result other than the blocklists names its filter |
| Refusal.Apology | src/ai/refusal.py:64-66 | the apology lead, then the reasons joined by ", ", then the closing request to rephrase; never the retry message |
| Refusal.Reasons | src/ai/refusal.py:59-62 | without blocklists, the generic reasons; with them, raises exactly when the blocklist processing does, and otherwise the custom reasons followed by the generic ones |
| Refusal.HandleReply | src/ai/refusal.py:53-68 | the reply is the retry message exactly when there is no reason, and otherwise the apology for the reasons |
| Refusal.HandleContentFilterError | src/ai/refusal.py:53-68 | an error that is not a dict raises; a reply is the retry message or an apology |
| Refusal.NoFilterResultRetry | src/ai/refusal.py:57-68 | an error without `innererror` or without `content_filter_result` gets the retry message |

## Left out

- Concurrency: the debounce sleep and the races between concurrent handlers are not modelled. Each operation runs alone over the store. The unused lock and task maps are not modelled.
- Redis, SQL, Service Bus and blob storage are not modelled. Redis is one map of entries. The messages table is an append-only log in which every insert lands, so the swallowed repository errors never show.
- Network calls are not modelled. This covers `get_collection_by_user_id`, `get_clients_by_user_id`, `get_account_by_user_id`, `_to_collection`, and the request bodies of `create_client`, `create_collection` and `delete_collection`. What they return is a parameter: the account lookup is `found` in `Users.UserSpec`, and the provider's lists are parameters of `Conversations.ConversationSpec`. Only the empty-phone check of `get_account_by_user_id` is kept.
- The OCR, LLM and Document Intelligence pipeline is not modelled. Its answers are given as `Jelou.OcrResults`.
- Floating-point amounts are opaque values, and nothing computes with them.
- The clock, uuids, environment variables and date formatting are parameters.
- JSON encoding, pydantic validation of raw text, `str`/`repr` of objects, `quote` and `urlencode` are parameters or abstract functions. Pydantic's lax coercion, such as numbers given as strings, is not modelled: a field of the wrong kind fails validation.
- Jelou.MediaOf: a media URL that is neither a string nor null is listed as None, whereas the source's buffer keeps the raw JSON value; the channel's `Message` for such a URL fails validation in both.
- `serialize_message` is not part of this model. `ensure_json_serializable` takes "does it encode" as a predicate on the data.
- The `image` and `name` fields of the channel's `Message` are not modelled. Nothing in the core reads them.
- Python's `hash()` is not modelled. An id that is a list or a dict is unhashable; every other value is a valid key.
- `Text.Lower` lowercases only ASCII and Latin-1 letters.
- The history's message classes are one `ToolUtil.ChatMessage` datatype with human, AI and tool messages.
- Exception classes and messages are approximate. Only whether a call raises, and where, is modelled.
- `send_message`, `send_template_message` and `verify_webhook` are HTTP I/O and are not modelled.
- The agent orchestration (src/ai/main.py, builder.py, llm.py and the tools) and the HTTP entry points are not part of this model.
- Jelou.ContactSentences: its own contract states only that there is one sentence per contact. `Jelou.ContactSentencesItems` states that sentence `i` is `Jelou.ContactSentence` of contact `i`, whose contract gives the name and the formatted phone.
- Provider.PhoneLookupMessage and Provider.NameSearchMessage: the reply texts are built from the lookup results without contracts of their own. What they report is stated by `Provider.LookupByPhone` and `Provider.MatchByNameMembers`.

## Findings

| source | as written | input that shows it | evidently intended | confidence | as-written member | corrected member |
|---|---|---|---|---|---|---|
| src/integrations/indi/provider.py:349-355 | `dict_items != []` compares a dict view with a list, which is always true, so the "none registered" branch is dead | a memory with no clients gives "Se encontraron 0 clientes: dict_items([])" | no clients gives "No existe ningun cliente registrado por el usuario" | not executed | Provider.AllClientsEmptyStillFound | Provider.AllClientsMessageIntended |
