/** The audit trail of a conversation: `MessageService.save_message` writes
    one record per fragment of an inbound burst, or one record for an
    outcome, into the messages table (here an append-only log). */
module Messages {
  import opened Text
  import opened Dicts
  import opened Values
  import opened Bursts
  import opened UserModel

  // ----- model data -----

  /** What the agent passes as `model_data`: JSON-like values, lists and
      dicts of them, and objects `json.dumps` cannot encode (LangChain
      messages, exceptions), known only by their `str()`. */
  datatype PyData =
    | Scalar(v: Value)
    | PList(items: seq<PyData>)
    | PDict(entries: seq<(string, PyData)>)
    | Foreign(text: string)

  /** `json.dumps(data)` succeeds. */
  predicate JsonSerializable(d: PyData) {
    match d
    case Scalar(_) => true
    case PList(items) => forall i :: 0 <= i < |items| ==> JsonSerializable(items[i])
    case PDict(entries) => forall i :: 0 <= i < |entries| ==> JsonSerializable(entries[i].1)
    case Foreign(_) => false
  }

  /** Python's `bool(data)`. */
  predicate PyTruthy(d: PyData) {
    match d
    case Scalar(v) => Truthy(v)
    case PList(items) => items != []
    case PDict(entries) => entries != []
    case Foreign(_) => true
  }

  /** `ensure_json_serializable`: the data itself when it encodes, otherwise
      its `str()`; either way the result encodes. */
  function EnsureJsonSerializable(d: PyData, str: PyData -> string): (r: PyData)
    ensures JsonSerializable(r)
    ensures JsonSerializable(d) ==> r == d
    ensures !JsonSerializable(d) ==> r == Scalar(VStr(str(d)))
  {
    if JsonSerializable(d) then d else Scalar(VStr(str(d)))
  }

  /** Making data encodable twice is making it encodable once. */
  lemma EnsureJsonSerializableIdempotent(d: PyData, str: PyData -> string)
    ensures EnsureJsonSerializable(EnsureJsonSerializable(d, str), str) == EnsureJsonSerializable(d, str)
  {
  }

  /** `build_model_data`: `{"tools": tools, "message": message}`. */
  function BuildModelData(tools: PyData, message: PyData): (r: PyData)
    ensures r.PDict? && Keys(r.entries) == ["tools", "message"]
    ensures Get(r.entries, "tools") == Some(tools)
    ensures Get(r.entries, "message") == Some(message)
  {
    var d: Dict<string, PyData> := [("tools", tools), ("message", message)];
    GetAt(d, 0);
    GetAt(d, 1);
    PDict(d)
  }

  /** The built dict encodes exactly when both its parts do, and it is
      always truthy, so it is always stored. */
  lemma BuildModelDataSerializable(tools: PyData, message: PyData)
    ensures JsonSerializable(BuildModelData(tools, message))
            <==> JsonSerializable(tools) && JsonSerializable(message)
    ensures PyTruthy(BuildModelData(tools, message))
  {
    var e := BuildModelData(tools, message).entries;
    assert e[0].1 == tools && e[1].1 == message;
  }

  // ----- the message being saved -----

  /** The `Message` record a channel builds (its `image` and `name` fields,
      which no record reads, are not kept). */
  datatype Message = Message(
    sender: string,
    message: string,
    source: string,
    provider: string,
    userId: string,
    forceAnonymous: bool,
    mediaUrl: Option<string>,
    caption: Option<string>,
    listedMessages: Option<Dict<string, ListedPayload>>)

  /** `save_message` receives a `Message` or, for an agent outcome, a plain string. */
  datatype Outgoing = Msg(m: Message) | Plain(text: string)

  /** `getattr(message, 'source', None) or 'TEXT'`. */
  function MsgType(o: Outgoing): (t: string)
    ensures t != []
    ensures o.Msg? && o.m.source != "" ==> t == o.m.source
    ensures o.Plain? || o.m.source == "" ==> t == "TEXT"
  {
    if o.Msg? && o.m.source != "" then o.m.source else "TEXT"
  }

  /** `getattr(message, 'message', None) or (str(message) if is_outcome else "")`;
      `str` of a plain string is that string. */
  function MsgText(o: Outgoing, isOutcome: bool, str: Outgoing -> string): (t: string)
    // the message's own non-empty text first
    ensures o.Msg? && o.m.message != "" ==> t == o.m.message
    // otherwise an outcome is saved as its string form, anything else as ""
    ensures !(o.Msg? && o.m.message != "") && !isOutcome ==> t == ""
    ensures !(o.Msg? && o.m.message != "") && isOutcome && o.Plain? ==> t == o.text
    ensures !(o.Msg? && o.m.message != "") && isOutcome && o.Msg? ==> t == str(o)
  {
    if o.Msg? && o.m.message != "" then o.m.message
    else if !isOutcome then ""
    else if o.Plain? then o.text
    else str(o)
  }

  /** The sender before the fragment loop: `'ia'` for an outcome, otherwise
      the message's sender, its user id, or the caller's user id. */
  function BaseSender(o: Outgoing, isOutcome: bool, userId: string): (s: string)
    ensures isOutcome ==> s == "ia"
    ensures !isOutcome && o.Plain? ==> s == userId
    // the message's own sender first, then its user id, then the caller's
    ensures !isOutcome && o.Msg? && o.m.sender != "" ==> s == o.m.sender
    ensures !isOutcome && o.Msg? && o.m.sender == "" && o.m.userId != "" ==> s == o.m.userId
    ensures !isOutcome && o.Msg? && o.m.sender == "" && o.m.userId == "" ==> s == userId
  {
    if isOutcome then "ia"
    else if o.Msg? && o.m.sender != "" then o.m.sender
    else if o.Msg? && o.m.userId != "" then o.m.userId
    else userId
  }

  /** `getattr(message, 'listed_messages', None) or {}`. */
  function ListedOf(o: Outgoing): Dict<string, ListedPayload> {
    if o.Msg? && o.m.listedMessages.Some? then o.m.listedMessages.value else []
  }

  /** `getattr(message, attr, None) or ''` for the media URL and caption. */
  function OrEmpty(s: Option<string>): string {
    if s.Some? then s.value else ""
  }

  // ----- the records -----

  /** One row handed to the messages repository. `ocrContext` is None for
      the single-record form, which has no such key. */
  datatype AuditRecord = AuditRecord(
    msgType: string,
    message: Option<string>,
    sender: string,
    mediaUrl: Option<string>,
    caption: string,
    typeUser: string,
    userId: string,
    invokeId: string,
    date: string,
    modelData: Option<PyData>,
    contentFiltered: bool,
    ocrContext: Option<Option<string>>,
    sessionId: string)

  /** The fields every record of one call shares. */
  datatype SaveContext = SaveContext(
    caption: string,
    typeUser: string,
    userId: string,
    invokeId: string,
    modelData: Option<PyData>,
    contentFiltered: bool,
    sessionId: string)

  /** The shared fields: `type_user` is always `user.get_type()` (a `User`
      is truthy and has `get_type`, which overrides the `is_indi_user`
      branch), and model data is stored encodable, or None when falsy. */
  function ContextOf(o: Outgoing, user: User, invokeId: string, modelData: Option<PyData>,
                     contentFiltered: bool, str: PyData -> string): (c: SaveContext)
    ensures c.typeUser == GetType(user)
    ensures c.modelData.Some? <==> modelData.Some? && PyTruthy(modelData.value)
    ensures c.modelData.Some? ==> JsonSerializable(c.modelData.value)
  {
    var caption := if o.Msg? then OrEmpty(o.m.caption) else "";
    var md := if modelData.Some? && PyTruthy(modelData.value)
              then Some(EnsureJsonSerializable(modelData.value, str)) else None;
    SaveContext(caption, GetType(user), user.userId, invokeId, md, contentFiltered, user.currentSessionId)
  }

  /** A fragment whose OCR failed on an image. */
  predicate FailedImage(p: ListedPayload) {
    !p.ocrSuccess && p.msgType == "IMAGE"
  }

  /** Some fragment among `entries` is a failed image. */
  predicate AnyFailedImage(entries: seq<(string, ListedPayload)>) {
    entries != [] && (AnyFailedImage(entries[..|entries| - 1]) || FailedImage(entries[|entries| - 1].1))
  }

  lemma {:induction false} AnyFailedImageExists(entries: seq<(string, ListedPayload)>)
    ensures AnyFailedImage(entries) <==> exists j :: 0 <= j < |entries| && FailedImage(entries[j].1)
  {
    if entries != [] {
      var n := |entries| - 1;
      AnyFailedImageExists(entries[..n]);
      if exists j :: 0 <= j < |entries| && FailedImage(entries[j].1) {
        var j :| 0 <= j < |entries| && FailedImage(entries[j].1);
        if j < n {
          assert entries[..n][j] == entries[j];
        }
      }
      assert forall j :: 0 <= j < n ==> entries[..n][j] == entries[j];
    }
  }

  /** The sender once `entries` have been looped over: `'ocr'` from the
      first failed image on, and it is never set back. */
  function SenderAfter(entries: seq<(string, ListedPayload)>, sender: string): string {
    if AnyFailedImage(entries) then "ocr" else sender
  }

  /** The record written for one fragment. */
  function RecordFor(key: string, p: ListedPayload, sender: string, c: SaveContext,
                     formatDate: string -> string): AuditRecord
  {
    AuditRecord(p.msgType, p.message, sender, p.mediaUrl, c.caption, c.typeUser, c.userId,
                c.invokeId, formatDate(key), c.modelData, c.contentFiltered, Some(p.ocrContext),
                c.sessionId)
  }

  /** The records of the fragment loop, in the order of `listed_messages`. */
  function FanOut(entries: seq<(string, ListedPayload)>, sender: string, c: SaveContext,
                  formatDate: string -> string): seq<AuditRecord>
  {
    if entries == [] then []
    else
      var n := |entries| - 1;
      FanOut(entries[..n], sender, c, formatDate)
      + [RecordFor(entries[n].0, entries[n].1, SenderAfter(entries, sender), c, formatDate)]
  }

  /** One record per fragment, carrying that fragment's type, text, media
      URL, OCR context and formatted timestamp; its sender is `'ocr'` exactly
      when this or an earlier fragment is a failed image. */
  lemma {:induction false} FanOutRecords(entries: seq<(string, ListedPayload)>, sender: string,
                                         c: SaveContext, formatDate: string -> string)
    ensures |FanOut(entries, sender, c, formatDate)| == |entries|
    ensures forall i :: 0 <= i < |entries| ==>
              FanOut(entries, sender, c, formatDate)[i]
              == RecordFor(entries[i].0, entries[i].1, SenderAfter(entries[..i + 1], sender), c, formatDate)
  {
    if entries != [] {
      var n := |entries| - 1;
      FanOutRecords(entries[..n], sender, c, formatDate);
      forall i | 0 <= i < n ensures entries[..n][..i + 1] == entries[..i + 1] && entries[..n][i] == entries[i] { }
      assert entries[..n + 1] == entries;
    }
  }

  /** The sender of record `i`. */
  lemma StickySender(entries: seq<(string, ListedPayload)>, sender: string, i: nat)
    requires i < |entries|
    ensures SenderAfter(entries[..i + 1], sender)
            == if exists j :: 0 <= j <= i && FailedImage(entries[j].1) then "ocr" else sender
  {
    AnyFailedImageExists(entries[..i + 1]);
    assert forall j :: 0 <= j <= i ==> entries[..i + 1][j] == entries[j];
  }

  /** The record of the single-record form. */
  function SingleRecord(o: Outgoing, isOutcome: bool, userId: string, c: SaveContext,
                        currentDate: string, str: Outgoing -> string): AuditRecord
  {
    AuditRecord(MsgType(o), Some(MsgText(o, isOutcome, str)), BaseSender(o, isOutcome, userId),
                Some(if o.Msg? then OrEmpty(o.m.mediaUrl) else ""), c.caption, c.typeUser, c.userId,
                c.invokeId, currentDate, c.modelData, c.contentFiltered, None, c.sessionId)
  }

  /** The records `save_message` writes. Its test
      `(listed is not None) or (listed != {})` always holds, since `listed`
      is never None, so the fragment loop runs for every sender but `'ia'`
      even when there are no fragments. */
  function SavedRecords(o: Outgoing, userId: string, c: SaveContext, isOutcome: bool,
                        currentDate: string, formatDate: string -> string, str: Outgoing -> string)
    : (rs: seq<AuditRecord>)
    ensures BaseSender(o, isOutcome, userId) == "ia" ==> |rs| == 1 && rs[0].sender == "ia"
    ensures BaseSender(o, isOutcome, userId) != "ia" ==> |rs| == |ListedOf(o)|
    // every record is filed under the call's invoke id and user
    ensures forall i :: 0 <= i < |rs| ==> rs[i].invokeId == c.invokeId && rs[i].userId == c.userId
  {
    var sender := BaseSender(o, isOutcome, userId);
    FanOutRecords(ListedOf(o), sender, c, formatDate);
    if sender != "ia" then FanOut(ListedOf(o), sender, c, formatDate)
    else [SingleRecord(o, isOutcome, userId, c, currentDate, str)]
  }

  /** An outcome is saved as exactly one record, sent by `'ia'`, holding the
      outcome text. */
  lemma OutcomeSavesOne(o: Outgoing, userId: string, c: SaveContext, currentDate: string,
                        formatDate: string -> string, str: Outgoing -> string)
    ensures var rs := SavedRecords(o, userId, c, true, currentDate, formatDate, str);
            |rs| == 1 && rs[0].sender == "ia" && rs[0].ocrContext.None? && rs[0].date == currentDate
            && rs[0].msgType == MsgType(o)
            && rs[0].message == Some(if o.Plain? then o.text else if o.m.message != "" then o.m.message else str(o))
  {
  }

  /** An inbound message from a user writes one record per fragment, so
      one without fragments writes none at all. */
  lemma InboundWithoutFragments(o: Outgoing, userId: string, c: SaveContext, currentDate: string,
                                formatDate: string -> string, str: Outgoing -> string)
    requires BaseSender(o, false, userId) != "ia"
    ensures |SavedRecords(o, userId, c, false, currentDate, formatDate, str)| == |ListedOf(o)|
    ensures ListedOf(o) == [] ==> SavedRecords(o, userId, c, false, currentDate, formatDate, str) == []
  {
    FanOutRecords(ListedOf(o), BaseSender(o, false, userId), c, formatDate);
  }

  /** The messages table, as the sequence of rows handed to it. A failed
      insert is logged and swallowed by the repository; here every insert
      lands. */
  class AuditLog {
    var records: seq<AuditRecord>

    constructor()
      ensures records == []
    {
      records := [];
    }

    /** `MessageRepository().create(payload)`. */
    method Create(r: AuditRecord)
      modifies this
      ensures records == old(records) + [r]
    {
      records := records + [r];
    }
  }

  /** `save_message`, with the clock reading, its formatting and the `str()`
      of a message passed in. */
  method SaveMessage(log: AuditLog, message: Outgoing, userId: string, invokeId: string, user: User,
                     modelData: Option<PyData>, contentFiltered: bool, isOutcome: bool,
                     currentDate: string, formatDate: string -> string,
                     str: Outgoing -> string, strData: PyData -> string)
    modifies log
    ensures log.records == old(log.records)
            + SavedRecords(message, userId, ContextOf(message, user, invokeId, modelData, contentFiltered, strData),
                           isOutcome, currentDate, formatDate, str)
  {
    var c := ContextOf(message, user, invokeId, modelData, contentFiltered, strData);
    var sender := BaseSender(message, isOutcome, userId);
    var listed := ListedOf(message);
    if sender != "ia" {
      ghost var base := sender;
      var i := 0;
      while i < |listed|
        invariant 0 <= i <= |listed|
        invariant sender == SenderAfter(listed[..i], base)
        invariant log.records == old(log.records) + FanOut(listed[..i], base, c, formatDate)
      {
        var (key, listedMessage) := listed[i];
        assert listed[..i + 1][..i] == listed[..i];
        if FailedImage(listedMessage) {
          sender := "ocr";
        }
        log.Create(RecordFor(key, listedMessage, sender, c, formatDate));
        i := i + 1;
      }
      assert listed[..i] == listed;
    } else {
      log.Create(SingleRecord(message, isOutcome, userId, c, currentDate, str));
    }
  }
}
