/** The per-sender burst aggregator: fragments of one WhatsApp burst are
    folded into a record under `whatsapp_buffer:<sender>`, and a later read
    delivers the record once and deletes it. */
module Aggregator {
  import opened Text
  import opened Dicts
  import opened Bursts
  import opened KeyValue

  /** The dict `aggregate_if_ready` returns. */
  datatype AggregateResult =
    | Waiting
    | Complete(message: string, listed: Dict<string, ListedPayload>)
    | InteralFailure(message: string, failureInput: Option<string>,
                     listed: Dict<string, ListedPayload>)

  /** The `status` field of a result (the typo is the real status string). */
  function Status(r: AggregateResult): (s: string)
    ensures s in {"waiting", "complete", "interal_failure"}
    // each result kind has its own status, so the status tells them apart
    ensures r.Waiting? <==> s == "waiting"
    ensures r.Complete? <==> s == "complete"
    ensures r.InteralFailure? <==> s == "interal_failure"
  {
    match r
    case Waiting => "waiting"
    case Complete(_, _) => "complete"
    case InteralFailure(_, _, _) => "interal_failure"
  }

  /** The state `buffer_message` starts from: the stored record, or `{}` when
      the key is absent, empty or undecodable. Any other decodable record
      lacks the burst keys and reads as `{}` too. */
  function CurrentState(b: Option<Blob>): (s: BurstState)
    ensures !(b.Some? && b.value.BurstBlob?) ==> s == EmptyBurst
  {
    if b.Some? && b.value.BurstBlob? then b.value.burst else EmptyBurst
  }

  /** The fragment's text, OCR success flag and OCR context, or the exception
      reading them raises: an IMAGE must carry an OCR dict with a message,
      and any other type a text. */
  function Incoming(f: Fragment, msgType: string): (r: Outcome<(string, bool, Option<string>)>)
    ensures r.Ok? && msgType != "IMAGE" ==> f == Text(Some(r.value.0)) && r.value.1 && r.value.2.None?
    ensures r.Ok? && msgType == "IMAGE" ==> f == OcrReply(Some(r.value.0), r.value.1, r.value.2)
    ensures r.Raised? <==> (msgType == "IMAGE" && !(f.OcrReply? && f.message.Some?))
                           || (msgType != "IMAGE" && !(f.Text? && f.text.Some?))
  {
    if msgType == "IMAGE" then
      match f
      case Text(_) => Raised("AttributeError: object has no attribute 'get'")
      case OcrReply(m, ok, ctx) =>
        if m.None? then Raised("KeyError or AttributeError on 'message'") else Ok((m.value, ok, ctx))
    else
      match f
      case Text(t) => if t.None? then Raised("AttributeError: 'NoneType' object has no attribute 'strip'")
                      else Ok((t.value, true, None))
      case OcrReply(_, _, _) => Raised("AttributeError: 'dict' object has no attribute 'strip'")
  }

  /** `x if x else None` for the OCR context. */
  function Truthy(ctx: Option<string>): (r: Option<string>)
    ensures r.Some? <==> ctx.Some? && ctx.value != []
    ensures r.Some? ==> r == ctx
  {
    if ctx.Some? && ctx.value != [] then ctx else None
  }

  /** The entry recorded in `listed_buffer` for a fragment. */
  function Payload(msg: string, ok: bool, ctx: Option<string>, msgType: string,
                   mediaUrl: Option<string>): (p: ListedPayload)
    ensures ok ==> p.message == Some(msg)
    ensures !ok ==> p.message == ctx
    ensures p.ocrContext == Truthy(ctx) && p.ocrSuccess == ok && p.msgType == msgType
  {
    ListedPayload(if !ok then ctx else Some(msg), msgType, mediaUrl, Truthy(ctx), ok)
  }

  /** The record `buffer_message` writes after folding a well-formed fragment
      into `s` at time `now`. */
  function Fold(s: BurstState, msg: string, ok: bool, ctx: Option<string>, msgType: string,
                mediaUrl: Option<string>, now: string): (t: BurstState)
    // the fragment is always listed under its timestamp, nothing else changes there
    ensures Get(t.listed, now) == Some(Payload(msg, ok, ctx, msgType, mediaUrl))
    ensures forall k :: k != now ==> Get(t.listed, k) == Get(s.listed, k)
    // a failure is sticky, and a failing fragment sets the context and the buffer
    ensures t.failure == (s.failure || !ok)
    ensures !ok ==> t.failureContext == Truthy(ctx) && t.buffer == Strip(msg)
    ensures !ok ==> t.bufferTs == (if s.failure then s.bufferTs else now)
    // after a failure, a successful fragment changes nothing but the list
    ensures s.failure && ok ==> t == s.(listed := t.listed)
    // without a failure, a successful fragment is appended to the buffer
    ensures !s.failure && ok ==> (t.buffer == Strip(Strip(s.buffer) + " " + Strip(msg))
                                  && t.bufferTs == now && t.failureContext.None?)
  {
    var listed := Put(s.listed, now, Payload(msg, ok, ctx, msgType, mediaUrl));
    var next :=
      if !s.failure then BurstState(Strip(Strip(s.buffer) + " " + Strip(msg)), now, listed, false, None)
      else s.(listed := listed);
    if !ok then next.(failure := true, failureContext := Truthy(ctx), buffer := Strip(msg))
    else next
  }

  /** `buffer_message` on the store's contents: the new contents, or the
      exception it raises (the store is then untouched). */
  function BufferSpec(data: map<string, Entry>, userId: string, f: Fragment, msgType: string,
                      mediaUrl: Option<string>, now: string): (r: Outcome<map<string, Entry>>)
    ensures r.Raised? <==> Incoming(f, msgType).Raised?
  {
    var key := BufferKey(userId);
    var cur := CurrentState(if key in data then Some(data[key].blob) else None);
    match Incoming(f, msgType)
    case Raised(e) => Raised(e)
    case Ok((msg, ok, ctx)) =>
      Ok(data[key := Entry(BurstBlob(Fold(cur, msg, ok, ctx, msgType, mediaUrl, now)), None)])
  }

  /** `buffer_message` writes only the burst key, without an expiry. */
  lemma BufferSpecFrame(data: map<string, Entry>, userId: string, f: Fragment, msgType: string,
                        mediaUrl: Option<string>, now: string)
    ensures var r := BufferSpec(data, userId, f, msgType, mediaUrl, now);
            r.Ok? ==> BufferKey(userId) in r.value
                      && r.value == data[BufferKey(userId) := r.value[BufferKey(userId)]]
                      && r.value[BufferKey(userId)].ttl.None?
  {
    if Incoming(f, msgType).Ok? {
      BufferSpecOk(data, userId, f, msgType, mediaUrl, now);
    }
  }

  /** A well-formed fragment is folded into the stored state and written
      back under the burst key. */
  lemma BufferSpecOk(data: map<string, Entry>, userId: string, f: Fragment, msgType: string,
                     mediaUrl: Option<string>, now: string)
    requires Incoming(f, msgType).Ok?
    ensures var key := BufferKey(userId);
            var (msg, ok, ctx) := Incoming(f, msgType).value;
            var cur := CurrentState(if key in data then Some(data[key].blob) else None);
            BufferSpec(data, userId, f, msgType, mediaUrl, now)
            == Ok(data[key := Entry(BurstBlob(Fold(cur, msg, ok, ctx, msgType, mediaUrl, now)), None)])
  {
  }

  /** What `aggregate_if_ready` reports for a stored record. */
  function Classify(s: BurstState): (r: AggregateResult)
    ensures r != Waiting
    ensures r.message == Strip(s.buffer) && r.listed == s.listed
    ensures r.InteralFailure? <==> s.failure
    ensures r.InteralFailure? ==> r.failureInput == s.failureContext
  {
    if s.failure then InteralFailure(Strip(s.buffer), s.failureContext, s.listed)
    else Complete(Strip(s.buffer), s.listed)
  }

  /** `aggregate_if_ready` on the store's contents: its result and the new
      contents. An absent or empty value is "waiting" and nothing is written;
      undecodable text raises before the delete; any other record is
      delivered and deleted. */
  function AggregateSpec(data: map<string, Entry>, userId: string)
    : (r: (Outcome<AggregateResult>, map<string, Entry>))
    ensures r.0 == Ok(Waiting) <==> !Present(if BufferKey(userId) in data then Some(data[BufferKey(userId)].blob) else None)
    ensures r.0 == Ok(Waiting) || r.0.Raised? ==> r.1 == data
    ensures r.0.Ok? && r.0.value != Waiting ==> r.1 == data - {BufferKey(userId)}
  {
    var key := BufferKey(userId);
    if key !in data || data[key].blob == Corrupt("") then (Ok(Waiting), data)
    else if data[key].blob.Corrupt? then (Raised("JSONDecodeError"), data)
    else (Ok(Classify(CurrentState(Some(data[key].blob)))), data - {key})
  }

  /** One call of `buffer_message`: the fragment, its type, its media URL and
      the clock reading. */
  datatype Call = Call(f: Fragment, msgType: string, mediaUrl: Option<string>, now: string)

  /** The record after one call; a call that raises leaves it as it was. */
  function Step(s: BurstState, c: Call): (t: BurstState)
    ensures Incoming(c.f, c.msgType).Raised? ==> t == s
    ensures Incoming(c.f, c.msgType).Ok? ==>
              var (msg, ok, ctx) := Incoming(c.f, c.msgType).value;
              && Get(t.listed, c.now) == Some(Payload(msg, ok, ctx, c.msgType, c.mediaUrl))
              && t.failure == (s.failure || !ok)
  {
    match Incoming(c.f, c.msgType)
    case Raised(_) => s
    case Ok((msg, ok, ctx)) => Fold(s, msg, ok, ctx, c.msgType, c.mediaUrl, c.now)
  }

  /** The record after a sequence of calls, in order. */
  function Run(s: BurstState, calls: seq<Call>): BurstState {
    if calls == [] then s else Step(Run(s, calls[..|calls| - 1]), calls[|calls| - 1])
  }

  /** The record a successful `buffer_message` writes is the record `Step` computes. */
  lemma BufferSpecIsStep(data: map<string, Entry>, userId: string, c: Call)
    requires BufferSpec(data, userId, c.f, c.msgType, c.mediaUrl, c.now).Ok?
    ensures var key := BufferKey(userId);
            BufferSpec(data, userId, c.f, c.msgType, c.mediaUrl, c.now).value[key]
            == Entry(BurstBlob(Step(CurrentState(if key in data then Some(data[key].blob) else None), c)), None)
  {
  }

  /** A plain text fragment of a non-image message. */
  predicate IsTextCall(c: Call) {
    c.msgType != "IMAGE" && c.f.Text? && c.f.text.Some?
  }

  /** The stripped, non-blank texts, in order. */
  function Words(texts: seq<string>): (ws: seq<string>)
    ensures forall i :: 0 <= i < |ws| ==> ws[i] != [] && IsStripped(ws[i])
  {
    if texts == [] then []
    else
      var last := Strip(texts[|texts| - 1]);
      Words(texts[..|texts| - 1]) + (if last == [] then [] else [last])
  }

  /** The text a call carries; only text calls are ever asked for it. */
  function TextOf(c: Call): string {
    if c.f.Text? && c.f.text.Some? then c.f.text.value else ""
  }

  /** The texts of a sequence of calls, in order. */
  function TextsOf(calls: seq<Call>): (ts: seq<string>)
    ensures |ts| == |calls| && forall i :: 0 <= i < |calls| ==> ts[i] == TextOf(calls[i])
  {
    seq(|calls|, i requires 0 <= i < |calls| => TextOf(calls[i]))
  }

  /** A burst of text fragments aggregates to their stripped, non-blank texts
      joined by single spaces, in call order, with no failure recorded. */
  lemma {:induction false} RunOfTexts(calls: seq<Call>)
    requires forall i :: 0 <= i < |calls| ==> IsTextCall(calls[i])
    ensures Run(EmptyBurst, calls).buffer == Join(Words(TextsOf(calls)), " ")
    ensures !Run(EmptyBurst, calls).failure
  {
    if calls != [] {
      var n := |calls| - 1;
      var init := calls[..n];
      assert forall i :: 0 <= i < |init| ==> init[i] == calls[i];
      RunOfTexts(init);
      assert IsTextCall(calls[n]);
      RunSnoc(EmptyBurst, calls);
      TextStep(Run(EmptyBurst, init), calls[n]);
      WordsOfCalls(calls);
    }
  }

  /** A run is the run of all but the last call, then one step. */
  lemma RunSnoc(s: BurstState, calls: seq<Call>)
    requires calls != []
    ensures Run(s, calls) == Step(Run(s, calls[..|calls| - 1]), calls[|calls| - 1])
  {
  }

  /** The joined words of a sequence of calls are those of all but the last
      call with the last text folded in as the buffer does. */
  lemma WordsOfCalls(calls: seq<Call>)
    requires calls != []
    ensures var n := |calls| - 1;
            Join(Words(TextsOf(calls)), " ")
            == Strip(Strip(Join(Words(TextsOf(calls[..n])), " ")) + " " + Strip(TextOf(calls[n])))
  {
    var n := |calls| - 1;
    var ts := TextsOf(calls[..n]);
    var t := TextOf(calls[n]);
    assert TextsOf(calls) == ts + [t];
    WordsSnoc(ts, t);
    WordsJoinStep(Words(ts), Strip(t));
  }

  /** The words of texts with one more text added. */
  lemma WordsSnoc(ts: seq<string>, t: string)
    ensures Words(ts + [t]) == Words(ts) + (if Strip(t) == [] then [] else [Strip(t)])
  {
    assert (ts + [t])[..|ts|] == ts;
  }

  /** Joining the words so far and folding one more stripped text into them
      as the buffer does gives the words with that text added when it is not
      blank. */
  lemma WordsJoinStep(ws: seq<string>, u: string)
    requires forall i :: 0 <= i < |ws| ==> ws[i] != [] && IsStripped(ws[i])
    requires IsStripped(u)
    ensures Strip(Strip(Join(ws, " ")) + " " + u) == Join(ws + (if u == [] then [] else [u]), " ")
  {
    var b := Join(ws, " ");
    JoinStripped(ws, " ");
    JoinEmpty(ws, " ");
    StrippedFixpoint(b);
    StripNext(ws, b, u);
  }

  /** A text call on a record without a failure appends the text to the buffer. */
  lemma TextStep(s: BurstState, c: Call)
    requires IsTextCall(c) && !s.failure
    ensures Step(s, c).buffer == Strip(Strip(s.buffer) + " " + Strip(TextOf(c)))
    ensures !Step(s, c).failure
  {
    assert Incoming(c.f, c.msgType) == Ok((c.f.text.value, true, None));
  }

  /** The step of `RunOfTexts`: one more stripped word joins the buffer. */
  lemma StripNext(ws: seq<string>, b: string, u: string)
    requires b == Join(ws, " ") && IsStripped(b) && IsStripped(u)
    requires b == [] <==> ws == []
    ensures Strip(b + " " + u) == Join(ws + (if u == [] then [] else [u]), " ")
  {
    if u == [] {
      assert ws + [] == ws;
      assert b + " " + u == b + " ";
      StripTrailingSpace(b);
    } else if b == [] {
      assert ws + [u] == [u];
      assert b + " " + u == " " + u;
      StripLeadingSpace(u);
    } else {
      JoinSnoc(ws, u, " ");
      StripJoinedPair(b, u);
    }
  }

  /** Once a failure is recorded, no later call clears it. */
  lemma {:induction false} FailureSticky(s: BurstState, calls: seq<Call>)
    requires s.failure
    ensures Run(s, calls).failure
  {
    if calls != [] {
      FailureSticky(s, calls[..|calls| - 1]);
    }
  }

  /** After a failure, successful fragments are still listed but change
      neither the buffer, its timestamp nor the failure context. */
  lemma {:induction false} FailureFreezesBuffer(s: BurstState, calls: seq<Call>)
    requires s.failure
    requires forall i :: 0 <= i < |calls| ==> IsTextCall(calls[i])
    ensures var t := Run(s, calls);
            t.buffer == s.buffer && t.bufferTs == s.bufferTs && t.failureContext == s.failureContext
  {
    if calls != [] {
      FailureFreezesBuffer(s, calls[..|calls| - 1]);
      FailureSticky(s, calls[..|calls| - 1]);
    }
  }

  /** A record is delivered once: right after a delivery the key is gone and
      the next read is "waiting". */
  lemma SingleDelivery(data: map<string, Entry>, userId: string)
    requires AggregateSpec(data, userId).0.Ok?
    ensures AggregateSpec(AggregateSpec(data, userId).1, userId).0 == Ok(Waiting)
  {
  }

  /** Buffering for one sender does not change what another sender's read
      returns. */
  lemma SendersIsolated(data: map<string, Entry>, a: string, b: string, c: Call)
    requires a != b
    requires BufferSpec(data, a, c.f, c.msgType, c.mediaUrl, c.now).Ok?
    ensures AggregateSpec(BufferSpec(data, a, c.f, c.msgType, c.mediaUrl, c.now).value, b).0
            == AggregateSpec(data, b).0
  {
    KeysSeparate(a, b);
    var d := BufferSpec(data, a, c.f, c.msgType, c.mediaUrl, c.now).value;
    ReadsOnlyOwnKey(d, data, b);
  }

  /** What a read returns depends only on the entry under the sender's key. */
  lemma ReadsOnlyOwnKey(d1: map<string, Entry>, d2: map<string, Entry>, userId: string)
    requires BufferKey(userId) in d1 <==> BufferKey(userId) in d2
    requires BufferKey(userId) in d1 ==> d1[BufferKey(userId)] == d2[BufferKey(userId)]
    ensures AggregateSpec(d1, userId).0 == AggregateSpec(d2, userId).0
  {
  }

  /** A read right after a successful buffer delivers the new record: it is
      never "waiting" and never raises. */
  lemma BufferThenAggregate(data: map<string, Entry>, userId: string, c: Call)
    requires BufferSpec(data, userId, c.f, c.msgType, c.mediaUrl, c.now).Ok?
    ensures var key := BufferKey(userId);
            var cur := CurrentState(if key in data then Some(data[key].blob) else None);
            AggregateSpec(BufferSpec(data, userId, c.f, c.msgType, c.mediaUrl, c.now).value, userId).0
            == Ok(Classify(Step(cur, c)))
  {
    var key := BufferKey(userId);
    var cur := CurrentState(if key in data then Some(data[key].blob) else None);
    BufferSpecIsStep(data, userId, c);
    DeliversStored(BufferSpec(data, userId, c.f, c.msgType, c.mediaUrl, c.now).value, userId,
                   Step(cur, c));
  }

  /** A stored record is delivered as `Classify` reports it. */
  lemma DeliversStored(d: map<string, Entry>, userId: string, x: BurstState)
    requires BufferKey(userId) in d && d[BufferKey(userId)].blob == BurstBlob(x)
    ensures AggregateSpec(d, userId).0 == Ok(Classify(x))
  {
  }

  /** An image whose OCR failed, whatever came before it, makes the next
      read report "interal_failure" with the image's stripped message and its
      OCR context as the failure input; the image is listed under its
      timestamp with the context as its message, and earlier entries stay. */
  lemma FailingImage(s: BurstState, msg: string, ctx: Option<string>, url: Option<string>,
                     now: string)
    ensures var t := Step(s, Call(OcrReply(Some(msg), false, ctx), "IMAGE", url, now));
            Classify(t) == InteralFailure(Strip(msg), Truthy(ctx), t.listed)
            && Get(t.listed, now).value.message == ctx
            && forall k :: k != now ==> Get(t.listed, k) == Get(s.listed, k)
  {
    var t := Fold(s, msg, false, ctx, "IMAGE", url, now);
    assert Step(s, Call(OcrReply(Some(msg), false, ctx), "IMAGE", url, now)) == t;
    StripIdempotent(msg);
  }

  /** The first part of `buffer_message`: the text, OCR flag and OCR context
      read from an IMAGE's OCR dict or from a text message. */
  method ReadFragment(incoming: Fragment, incomingType: string)
    returns (r: Outcome<(string, bool, Option<string>)>)
    ensures r == Incoming(incoming, incomingType)
  {
    var incomingOcrContext: Option<string> := None;
    var incomingOcrSuccess := true;
    var message: string;
    if incomingType == "IMAGE" {
      if !incoming.OcrReply? || incoming.message.None? {
        return Raised(Incoming(incoming, incomingType).error);
      }
      incomingOcrSuccess := incoming.success;
      incomingOcrContext := incoming.context;
      message := incoming.message.value;
    } else {
      if !incoming.Text? || incoming.text.None? {
        return Raised(Incoming(incoming, incomingType).error);
      }
      message := incoming.text.value;
    }
    r := Ok((message, incomingOcrSuccess, incomingOcrContext));
  }

  /** The body of `buffer_message` that builds the record to write: the
      fragment listed, the buffer extended, and the failure flags set. */
  method NextState(currentState: BurstState, message: string, incomingOcrSuccess: bool,
                   incomingOcrContext: Option<string>, incomingType: string,
                   incomingMediaUrl: Option<string>, now: string) returns (newState: BurstState)
    ensures newState == Fold(currentState, message, incomingOcrSuccess, incomingOcrContext,
                             incomingType, incomingMediaUrl, now)
  {
    var updatedBuffer := Strip(Strip(currentState.buffer) + " " + Strip(message));
    var payload := Payload(message, incomingOcrSuccess, incomingOcrContext, incomingType,
                           incomingMediaUrl);
    var listed := Put(currentState.listed, now, payload);
    if !currentState.failure {
      newState := BurstState(updatedBuffer, now, listed, false, None);
    } else {
      newState := currentState.(listed := listed);
    }
    if !incomingOcrSuccess {
      newState := newState.(failure := true, failureContext := Truthy(incomingOcrContext),
                            buffer := Strip(message));
    }
  }

  class AggregatorService {
    const store: Store

    constructor(store: Store)
      ensures this.store == store
    {
      this.store := store;
    }

    /** `buffer_message(user_id, incoming_message, incoming_type, incoming_mediaUrl)`
        with the clock reading `now` passed in. */
    method BufferMessage(userId: string, incoming: Fragment, incomingType: string,
                         incomingMediaUrl: Option<string>, now: string) returns (r: Outcome<()>)
      modifies store
      ensures r.Ok? <==> BufferSpec(old(store.data), userId, incoming, incomingType, incomingMediaUrl, now).Ok?
      ensures r.Ok? ==> store.data == BufferSpec(old(store.data), userId, incoming, incomingType, incomingMediaUrl, now).value
      ensures r.Raised? ==> store.data == old(store.data)
    {
      var userKey := BufferKey(userId);
      var raw := store.Get(userKey);
      var currentState := CurrentState(raw);
      var read := ReadFragment(incoming, incomingType);
      if read.Raised? {
        return Raised(read.error);
      }
      var newState := NextState(currentState, read.value.0, read.value.1, read.value.2,
                                incomingType, incomingMediaUrl, now);
      store.Set(userKey, BurstBlob(newState), None);
      r := Ok(());
    }

    /** `aggregate_if_ready(user_id)`, without the debounce sleep. */
    method AggregateIfReady(userId: string) returns (r: Outcome<AggregateResult>)
      modifies store
      ensures (r, store.data) == AggregateSpec(old(store.data), userId)
    {
      var userKey := BufferKey(userId);
      var raw := store.Get(userKey);
      if !Present(raw) {
        return Ok(Waiting);
      }
      if raw.value.Corrupt? {
        return Raised("JSONDecodeError");
      }
      var state := CurrentState(raw);
      var finalMessage := Strip(state.buffer);
      store.Delete(userKey);
      if state.failure {
        r := Ok(InteralFailure(finalMessage, state.failureContext, state.listed));
      } else {
        r := Ok(Complete(finalMessage, state.listed));
      }
    }
  }
}
