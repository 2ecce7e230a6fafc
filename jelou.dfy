/** The Jelou WhatsApp channel: reading a webhook payload into one fragment
    for the burst aggregator, and turning what the aggregator delivers into
    a `Message` (or, for a failed burst, into two audit saves). */
module Jelou {
  import opened Text
  import opened Dicts
  import opened Values
  import opened Bursts
  import opened KeyValue
  import opened UserModel
  import opened Aggregator
  import opened Messages

  datatype MessageType = TEXT | IMAGE | CONTACTS | AUDIO | FILE {
    /** The enum's value. */
    function Value(): string {
      match this
      case TEXT => "TEXT"
      case IMAGE => "IMAGE"
      case CONTACTS => "CONTACTS"
      case AUDIO => "AUDIO"
      case FILE => "FILE"
    }
  }

  /** `MessageType(v)`: the member with that value, or `ValueError`. */
  function ParseMessageType(v: Value): (r: Outcome<MessageType>)
    ensures r.Ok? ==> v == VStr(r.value.Value())
    ensures (exists t: MessageType :: v == VStr(t.Value())) ==> r.Ok?
  {
    if v == VStr("TEXT") then Ok(TEXT)
    else if v == VStr("IMAGE") then Ok(IMAGE)
    else if v == VStr("CONTACTS") then Ok(CONTACTS)
    else if v == VStr("AUDIO") then Ok(AUDIO)
    else if v == VStr("FILE") then Ok(FILE)
    else Raised("ValueError: not a valid MessageType")
  }

  /** `payload.get("data", {})`, which must be a dict for the `.get` after it. */
  function DataOf(payload: Fields): (r: Outcome<seq<(string, Value)>>)
    ensures !Has(payload, "data") ==> r == Ok([])
    ensures r.Ok? && Has(payload, "data") ==> Get(payload, "data") == Some(VObj(r.value))
    ensures r.Raised? <==> Has(payload, "data") && !Get(payload, "data").value.VObj?
  {
    match GetOr(payload, "data", VObj([]))
    case VObj(fs) => Ok(fs)
    case _ => Raised("AttributeError: object has no attribute 'get'")
  }

  /** The type `parse_message` dispatches on; TEXT when the payload names none. */
  function MessageTypeOf(payload: Fields): Outcome<MessageType> {
    var data :- DataOf(payload);
    ParseMessageType(GetOr(data, "type", VStr("TEXT")))
  }

  /** A text as the aggregator receives it; any value that is not a string
      fails there like None does. */
  function TextFragment(v: Value): (f: Fragment)
    ensures f.Text?
    ensures f.text.Some? <==> v.VStr?
  {
    if v.VStr? then Text(Some(v.s)) else Text(None)
  }

  /** A media URL as the aggregator's buffer keeps it; a value that is not a
      string is kept as no URL. */
  function MediaOf(v: Value): Option<string> {
    if v.VStr? then Some(v.s) else None
  }

  // ----- text and audio -----

  /** `_parse_text_message`: `data.text`, None when missing. */
  function ParseText(payload: Fields): (r: Outcome<Value>)
    ensures r.Ok? <==> DataOf(payload).Ok?
    ensures r.Ok? ==> r.value == GetOr(DataOf(payload).value, "text", VNull)
  {
    var data :- DataOf(payload);
    Ok(GetOr(data, "text", VNull))
  }

  /** `_parse_audio_message`: the transcribed text and the media URL, each
      None when missing. */
  function ParseAudio(payload: Fields): (r: Outcome<(Value, Value)>)
    ensures r.Ok? <==> DataOf(payload).Ok?
    ensures r.Ok? ==> r.value.0 == GetOr(DataOf(payload).value, "text", VNull)
                      && r.value.1 == GetOr(DataOf(payload).value, "mediaUrl", VNull)
  {
    var data :- DataOf(payload);
    Ok((GetOr(data, "text", VNull), GetOr(data, "mediaUrl", VNull)))
  }

  // ----- contacts -----

  /** A contact's phone as the agent is told it: spaces removed, and a
      Peruvian number written `+51 ` followed by the number with every
      `+51` taken out. The one space left is the one after `+51`, and no
      character but that space is new. */
  function FormatPhone(raw: string): (p: string)
    ensures var plain := ReplaceAll(raw, " ", "");
            StartsWith(plain, "+51") ==> StartsWith(p, "+51 ") && p[4..] == ReplaceAll(plain, "+51", "")
    ensures var plain := ReplaceAll(raw, " ", "");
            !StartsWith(plain, "+51") ==> p == plain
    ensures if StartsWith(p, "+51 ") then ' ' !in p[4..] else ' ' !in p
    ensures forall c :: c in p && c != ' ' ==> c in raw
  {
    var phone := ReplaceAll(raw, " ", "");
    RemoveSpaces(raw);
    if StartsWith(phone, "+51") then
      var tail := ReplaceAll(phone, "+51", "");
      RemoveAllChars(phone, "+51", ' ');
      var p := "+51 " + tail;
      assert p[..4] == "+51 " && p[4..] == tail;
      FormatPhoneChars(raw, phone, tail);
      p
    else
      assert forall c :: c in phone ==> c in raw by {
        forall c | c in phone ensures c in raw { RemoveAllChars(raw, " ", c); }
      }
      phone
  }

  /** Every character of a Peruvian phone as formatted, but the space, comes
      from the raw phone. */
  lemma FormatPhoneChars(raw: string, phone: string, tail: string)
    requires phone == ReplaceAll(raw, " ", "") && StartsWith(phone, "+51")
    requires tail == ReplaceAll(phone, "+51", "")
    ensures forall c :: c in "+51 " + tail && c != ' ' ==> c in raw
  {
    forall c | c in "+51 " + tail && c != ' ' ensures c in raw {
      if c in tail {
        RemoveAllChars(phone, "+51", c);
      } else {
        assert c in "+51";
        assert phone[..3] == "+51";
        assert c in phone[..3];
      }
      RemoveAllChars(raw, " ", c);
    }
  }

  /** Python's `replace` removes `+51` left to right in one pass, so taking
      one out can join the characters around it into a new `+51`: the number
      keeps a `+51` after its head. */
  lemma FormatPhoneInnerPrefix(phone: string)
    requires phone == "+51++5151"
    ensures FormatPhone(phone) == "+51 +51"
  {
    assert ' ' !in phone;
    assert phone[..3] == "+51";
    InnerPrefixRemoved(phone);
    FormatUnspacedPeruvian(phone);
  }

  /** A Peruvian phone already without spaces, as formatted. */
  lemma FormatUnspacedPeruvian(phone: string)
    requires ' ' !in phone && StartsWith(phone, "+51")
    ensures FormatPhone(phone) == "+51 " + ReplaceAll(phone, "+51", "")
  {
    ReplaceAllAbsent(phone, ' ', "");
    var p := FormatPhone(phone);
    assert p == p[..4] + p[4..];
  }

  /** Removing `+51` from `+51++5151`, one pass left to right, leaves `+51`. */
  lemma InnerPrefixRemoved(phone: string)
    requires phone == "+51++5151"
    ensures ReplaceAll(phone, "+51", "") == "+51"
  {
    IndexOfFirst(phone, "+51", 0);
    ReplaceAllAt(phone, "+51", "", 0);
    assert phone[3..] == "++5151";
    TailPrefixRemoved(phone[3..]);
  }

  lemma TailPrefixRemoved(rest: string)
    requires rest == "++5151"
    ensures ReplaceAll(rest, "+51", "") == "+51"
  {
    assert !OccursAt(rest, "+51", 0) by { assert rest[0..3][1] == '+' && "+51"[1] == '5'; }
    IndexOfFirst(rest, "+51", 1);
    ReplaceAllAt(rest, "+51", "", 1);
    var last := rest[4..];
    assert last == "51";
    assert forall j :: !OccursAt(last, "+51", j);
    assert ReplaceAll(rest, "+51", "") == rest[..1] + last;
  }




  /** Removing every occurrence of a pattern adds no character. */
  lemma {:induction false} RemoveAllChars(s: string, p: string, c: char)
    requires |p| > 0
    ensures c in ReplaceAll(s, p, "") ==> c in s
    decreases |s|
  {
    match IndexOf(s, p)
    case None =>
    case Some(i) =>
      ReplaceAllAt(s, p, "", i);
      RemoveAllChars(s[i + |p|..], p, c);
      if c in ReplaceAll(s, p, "") {
        InAroundGap(s, i, i + |p|, ReplaceAll(s[i + |p|..], p, ""), c);
      }
  }

  /** A character of the text around a removed stretch `s[i..j]`, the text
      after it bringing no character of its own, is a character of `s`. */
  lemma InAroundGap(s: string, i: nat, j: nat, t: string, c: char)
    requires i <= j <= |s| && (c in t ==> c in s[j..]) && c in s[..i] + "" + t
    ensures c in s
  {
    if c in s[..i] {
      var k :| 0 <= k < i && s[..i][k] == c;
      assert s[k] == c;
    } else {
      assert c in t;
      var k :| 0 <= k < |s| - j && s[j..][k] == c;
      assert s[j + k] == c;
    }
  }

  /** Removing every space leaves no space. */
  lemma {:induction false} RemoveSpaces(s: string)
    ensures ' ' !in ReplaceAll(s, " ", "")
    decreases |s|
  {
    match IndexOf(s, " ")
    case None =>
      NotBeforeFirst(s, ' ', |s|);
    case Some(i) =>
      ReplaceAllAt(s, " ", "", i);
      RemoveSpaces(s[i + 1..]);
      NotBeforeFirst(s, ' ', i);
  }

  /** No character before the first occurrence of a one-character pattern,
      or anywhere when there is none, is that character. */
  lemma NotBeforeFirst(s: string, c: char, i: nat)
    requires IndexOf(s, [c]) == Some(i) || (IndexOf(s, [c]) == None && i == |s|)
    ensures i <= |s| && c !in s[..i]
  {
    forall k | 0 <= k < i ensures s[k] != c {
      assert !OccursAt(s, [c], k);
      assert s[k..k + 1] == [s[k]];
    }
  }

  /** The phone `contact.get("phones", [{}])[0].get("phone", "")` reads,
      formatted; any step on a value of the wrong shape raises. */
  function ContactPhone(contact: Value): (r: Outcome<string>)
    ensures !contact.VObj? ==> r.Raised?
    // without a phones list the number reads as "", which formats to ""
    ensures contact.VObj? && !Has(contact.fields, "phones") ==> r == Ok("")
    ensures contact.VObj? && Get(contact.fields, "phones") == Some(VList([])) ==> r.Raised?
    ensures contact.VObj? && Has(contact.fields, "phones") && Get(contact.fields, "phones").value.VList?
            && Get(contact.fields, "phones").value.items != [] && Get(contact.fields, "phones").value.items[0].VObj?
            ==> var first := Get(contact.fields, "phones").value.items[0].fields;
                (r.Ok? <==> GetOr(first, "phone", VStr("")).VStr?)
                && (r.Ok? ==> r.value == FormatPhone(GetOr(first, "phone", VStr("")).s))
  {
    if !contact.VObj? then Raised("AttributeError: object has no attribute 'get'")
    else
      match GetOr(contact.fields, "phones", VList([VObj([])]))
      case VList(ps) =>
        if ps == [] then Raised("IndexError: list index out of range")
        else if !ps[0].VObj? then Raised("AttributeError: object has no attribute 'get'")
        else
          var phone := GetOr(ps[0].fields, "phone", VStr(""));
          if phone.VStr? then Ok(FormatPhone(phone.s))
          else Raised("AttributeError: object has no attribute 'replace'")
      case _ => Raised("KeyError, IndexError or AttributeError on phones[0]")
  }

  const ContactLead: string := "Aqui esta el contacto con nombre: "
  const ContactMiddle: string := " y numero de celular: "

  /** The sentence for one contact: the lead, the contact's `name` as `str`
      shows it, then its formatted phone. */
  function ContactSentence(contact: Value): (r: Outcome<string>)
    ensures r.Ok? <==> ContactPhone(contact).Ok?
    ensures r.Ok? ==> StartsWith(r.value, ContactLead) && r.value != []
    ensures r.Ok? ==>
              var name := Str(GetOr(contact.fields, "name", VNull));
              && |r.value| == |ContactLead| + |name| + |ContactMiddle| + |ContactPhone(contact).value|
              && r.value[|ContactLead|..|ContactLead| + |name|] == name
              && r.value[|ContactLead| + |name|..] == ContactMiddle + ContactPhone(contact).value
  {
    var phone :- ContactPhone(contact);
    var name := Str(GetOr(contact.fields, "name", VNull));
    var s := ContactLead + name + ContactMiddle + phone;
    assert s[..|ContactLead|] == ContactLead;
    assert s[|ContactLead|..|ContactLead| + |name|] == name;
    assert s[|ContactLead| + |name|..] == ContactMiddle + phone;
    Ok(s)
  }

  /** The strings `f` gives the items, in order; the first item that raises
      ends the loop with its error. */
  function Outcomes<X>(xs: seq<X>, f: X -> Outcome<string>): (r: Outcome<seq<string>>)
    ensures r.Ok? ==> |r.value| == |xs|
  {
    if xs == [] then Ok([])
    else
      var n := |xs| - 1;
      var done :- Outcomes(xs[..n], f);
      var s :- f(xs[n]);
      Ok(done + [s])
  }

  /** When the loop completes, string `i` is what `f` gives item `i`. */
  lemma {:induction false} OutcomesItems<X>(xs: seq<X>, f: X -> Outcome<string>)
    requires Outcomes(xs, f).Ok?
    ensures forall i :: 0 <= i < |xs| ==> Ok(Outcomes(xs, f).value[i]) == f(xs[i])
  {
    if xs != [] {
      var n := |xs| - 1;
      var init := xs[..n];
      OutcomesItems(init, f);
      var ss := Outcomes(xs, f).value;
      assert ss == Outcomes(init, f).value + [f(xs[n]).value];
      forall i | 0 <= i < |xs| ensures Ok(ss[i]) == f(xs[i]) {
        if i < n {
          assert init[i] == xs[i] && ss[i] == Outcomes(init, f).value[i];
        }
      }
    }
  }

  /** One more item that `f` accepts extends the strings so far. */
  lemma OutcomesStep<X>(xs: seq<X>, f: X -> Outcome<string>, i: nat)
    requires i < |xs| && Outcomes(xs[..i], f).Ok? && f(xs[i]).Ok?
    ensures Outcomes(xs[..i + 1], f) == Ok(Outcomes(xs[..i], f).value + [f(xs[i]).value])
  {
    assert xs[..i + 1][..i] == xs[..i];
    assert xs[..i + 1][i] == xs[i];
  }

  /** Once the items before `i` are accepted, an item `i` that raises makes
      the whole loop raise its error. */
  lemma {:induction false} OutcomesFirstRaise<X>(xs: seq<X>, f: X -> Outcome<string>, i: nat)
    requires i < |xs| && Outcomes(xs[..i], f).Ok? && f(xs[i]).Raised?
    ensures Outcomes(xs, f) == Raised(f(xs[i]).error)
    decreases |xs|
  {
    var init := xs[..|xs| - 1];
    if i == |xs| - 1 {
      assert init == xs[..i];
    } else {
      assert init[..i] == xs[..i];
      assert init[i] == xs[i];
      OutcomesFirstRaise(init, f, i);
    }
  }

  /** The sentences of the loop, in order; the first contact that raises
      ends it. */
  function ContactSentences(contacts: seq<Value>): Outcome<seq<string>> {
    Outcomes(contacts, ContactSentence)
  }

  /** When the loop completes, sentence `i` is contact `i`'s sentence, which
      begins with the lead. */
  lemma ContactSentencesItems(contacts: seq<Value>)
    requires ContactSentences(contacts).Ok?
    ensures forall i :: 0 <= i < |contacts| ==>
              Ok(ContactSentences(contacts).value[i]) == ContactSentence(contacts[i])
              && StartsWith(ContactSentences(contacts).value[i], ContactLead)
  {
    OutcomesItems(contacts, ContactSentence);
  }

  /** `_parse_contacts_message`: the sentences joined by `" y "`. */
  function ContactsText(payload: Fields): Outcome<string> {
    var data :- DataOf(payload);
    var contacts :- Iterate(GetOr(data, "contacts", VList([])));
    var sentences :- ContactSentences(contacts);
    Ok(Join(sentences, " y "))
  }

  /** Sentences that each begin with the lead, joined by `" y "`: the text
      is empty exactly when there are none, and begins with the first. */
  lemma JoinedSentences(ss: seq<string>)
    requires forall i :: 0 <= i < |ss| ==> StartsWith(ss[i], ContactLead)
    ensures Join(ss, " y ") == [] <==> ss == []
    ensures ss != [] ==> StartsWith(Join(ss, " y "), ss[0])
  {
    assert |ContactLead| > 0;
    forall i | 0 <= i < |ss| ensures ss[i] != [] {
      assert |ss[i]| >= |ContactLead|;
    }
    JoinEmpty(ss, " y ");
    if ss != [] {
      JoinStartsWithFirst(ss, " y ");
    }
  }

  /** A contact list is read in full or not at all: when it is, every
      contact has its sentence, the text is empty exactly when there are no
      contacts, and it begins with the first contact's sentence. */
  lemma ContactsTextShape(payload: Fields)
    requires ContactsText(payload).Ok?
    ensures var contacts := Iterate(GetOr(DataOf(payload).value, "contacts", VList([]))).value;
            var t := ContactsText(payload).value;
            && (forall i :: 0 <= i < |contacts| ==> ContactSentence(contacts[i]).Ok?)
            && (t == [] <==> contacts == [])
            && (contacts != [] ==> StartsWith(t, ContactSentence(contacts[0]).value))
  {
    var contacts := Iterate(GetOr(DataOf(payload).value, "contacts", VList([]))).value;
    var ss := ContactSentences(contacts).value;
    assert ContactsText(payload).value == Join(ss, " y ");
    ContactSentencesItems(contacts);
    JoinedSentences(ss);
    if contacts != [] {
      assert Ok(ss[0]) == ContactSentence(contacts[0]);
    }
  }

  // ----- image and file -----

  /** What the OCR pipeline would return for this payload: the image OCR
      dict for a creditor, the enterprise image OCR dict, and the
      `message` of the enterprise file OCR. */
  datatype OcrResults = OcrResults(image: Fragment, enterpriseImage: Fragment, fileMessage: Fragment)

  const Refusal: string := "No puedo ayudarte con el procesamiento de este tipo de contenido"

  /** `_parse_image_message`: the fragment, the media URL and whether the
      enterprise-file flag is set. A user of another type gets the refusal
      text; a payload whose type is not IMAGE or whose URL is empty reaches
      an unbound `ocr_result`. */
  function ParseImage(payload: Fields, user: User, ocr: OcrResults): (r: Outcome<(Fragment, Value, bool)>)
    ensures r.Ok? && r.value.2 ==> user.typeUser == Typed(Enterprise)
    ensures r.Ok? && !(user.typeUser == Typed(Acreetor) || user.typeUser == Typed(Enterprise))
            ==> r.value.0 == Text(Some(Refusal))
  {
    var data :- DataOf(payload);
    if !Has(data, "type") then Raised("KeyError: 'type'")
    else if Get(data, "type").value != VStr("IMAGE") then Raised("UnboundLocalError: ocr_result")
    else if !Has(data, "mediaUrl") then Raised("KeyError: 'mediaUrl'")
    else
      var url := Get(data, "mediaUrl").value;
      if !Values.Truthy(url) then Raised("UnboundLocalError: ocr_result")
      else match user.typeUser
        case Unset => Raised("AttributeError: type_user")
        case Typed(Acreetor) => Ok((ocr.image, url, false))
        case Typed(Enterprise) => Ok((ocr.enterpriseImage, url, true))
        case _ => Ok((Text(Some(Refusal)), url, false))
  }

  /** `_parse_file_message`: only an enterprise user's file is read by OCR;
      any other user gets the refusal text. */
  function ParseFile(payload: Fields, user: User, ocr: OcrResults): (r: Outcome<(Fragment, Value, bool)>)
    ensures r.Ok? && r.value.2 <==> r.Ok? && user.typeUser == Typed(Enterprise)
    ensures r.Ok? && user.typeUser != Typed(Enterprise) ==> r.value.0 == Text(Some(Refusal))
  {
    var data :- DataOf(payload);
    if !Has(data, "type") then Raised("KeyError: 'type'")
    else if Get(data, "type").value != VStr("FILE") then Raised("UnboundLocalError: ocr_message")
    else if !Has(data, "mediaUrl") then Raised("KeyError: 'mediaUrl'")
    else
      var url := Get(data, "mediaUrl").value;
      if !Values.Truthy(url) then Raised("UnboundLocalError: ocr_message")
      else match user.typeUser
        case Unset => Raised("AttributeError: type_user")
        case Typed(Enterprise) => Ok((ocr.fileMessage, url, true))
        case _ => Ok((Text(Some(Refusal)), url, false))
  }

  // ----- the dispatcher -----

  /** `_message_parser_dispatcher`: the fragment for the aggregator, its
      media URL, and whether the parse sets `is_enterprise_file`. Every
      member of the enum has an arm, so the `("", None)` default is never
      used. */
  function Dispatch(mt: MessageType, payload: Fields, user: User, ocr: OcrResults)
    : (r: Outcome<(Fragment, Value, bool)>)
    ensures r.Ok? <==> match mt
                       case TEXT => ParseText(payload).Ok?
                       case AUDIO => ParseAudio(payload).Ok?
                       case CONTACTS => ContactsText(payload).Ok?
                       case IMAGE => ParseImage(payload, user, ocr).Ok?
                       case FILE => ParseFile(payload, user, ocr).Ok?
    // text, audio and contacts give a text fragment and never set the flag;
    // only an enterprise user's image or file sets it
    ensures r.Ok? ==>
              var (f, url, sets) := r.value;
              && (mt == TEXT ==> f == TextFragment(ParseText(payload).value) && url == VNull)
              && (mt == AUDIO ==> f == TextFragment(ParseAudio(payload).value.0)
                                  && url == ParseAudio(payload).value.1)
              && (mt == CONTACTS ==> f == Text(Some(ContactsText(payload).value)) && url == VNull)
              && (sets ==> (mt == IMAGE || mt == FILE) && user.typeUser == Typed(Enterprise))
  {
    match mt
    case TEXT =>
      var t :- ParseText(payload);
      Ok((TextFragment(t), VNull, false))
    case AUDIO =>
      var (t, url) :- ParseAudio(payload);
      Ok((TextFragment(t), url, false))
    case CONTACTS =>
      var s :- ContactsText(payload);
      Ok((Text(Some(s)), VNull, false))
    case IMAGE => ParseImage(payload, user, ocr)
    case FILE => ParseFile(payload, user, ocr)
  }

  /** An image from a user who is neither a creditor nor an enterprise is
      answered with the refusal text, which the aggregator cannot read as an
      OCR dict: that image never reaches the burst buffer. */
  lemma UnauthorizedImageRejected(payload: Fields, user: User, ocr: OcrResults)
    requires Dispatch(IMAGE, payload, user, ocr).Ok?
    requires user.typeUser != Typed(Acreetor) && user.typeUser != Typed(Enterprise)
    ensures Incoming(Dispatch(IMAGE, payload, user, ocr).value.0, IMAGE.Value()).Raised?
  {
  }

  // ----- parse_message -----

  /** The `Message` `parse_message` builds; pydantic rejects a sender or
      text that is not a string, a `forceAnonymous` that is not a boolean,
      and a media URL or caption that is neither a string nor None. */
  function BuildMessage(sender: Value, text: Option<string>, mt: MessageType, forceAnonymous: Value,
                        mediaUrl: Value, caption: Value, listed: Dict<string, ListedPayload>)
    : (r: Outcome<Message>)
    ensures r.Ok? <==> sender.VStr? && text.Some? && forceAnonymous.VBool?
                       && (mediaUrl.VNull? || mediaUrl.VStr?) && (caption.VNull? || caption.VStr?)
    ensures r.Ok? ==> r.value.sender == sender.s && r.value.message == text.value
                      && r.value.source == mt.Value() && r.value.provider == "jelou"
                      && r.value.listedMessages == Some(listed)
    ensures r.Ok? && mediaUrl.VStr? ==> r.value.mediaUrl == Some(mediaUrl.s)
    ensures r.Ok? && mediaUrl.VNull? ==> r.value.mediaUrl.None?
  {
    if !sender.VStr? || text.None? || !forceAnonymous.VBool? || !(mediaUrl.VNull? || mediaUrl.VStr?)
       || !(caption.VNull? || caption.VStr?) then
      Raised("ValidationError")
    else
      Ok(Message(sender.s, text.value, mt.Value(), "jelou", "", forceAnonymous.b, MediaOf(mediaUrl),
                 if caption.VStr? then Some(caption.s) else None, Some(listed)))
  }

  /** What `parse_message` returns besides None: the aggregator's result
      (its `message` replaced by a `Message` when complete), whether the
      user is an enterprise, and the channel's enterprise-file flag. */
  datatype Delivered =
    | StillWaiting
    | Completed(message: Message, listed: Dict<string, ListedPayload>)
    | Failed(text: string, failureInput: Option<string>, listed: Dict<string, ListedPayload>)

  datatype Parsed = Parsed(result: Delivered, isEnterprise: bool, isEnterpriseFile: bool)

  /** The state `parse_message` reads and writes: the store, the audit log
      and the channel's flag. */
  datatype World = World(data: map<string, Entry>, records: seq<AuditRecord>, flag: bool)

  /** The environment of one call: OCR results, clock readings and their
      formatting, the invoke id, and how Python prints objects. */
  datatype Env = Env(ocr: OcrResults, now: string, invokeId: string, currentDate: string,
                     formatDate: string -> string, str: Outgoing -> string, strData: PyData -> string)

  /** The records the two saves of a failed burst write: the rejected input
      (not an outcome), then the failure text (an outcome), under one invoke
      id. */
  function FailureRecords(rejected: Message, failureText: string, user: User, env: Env): seq<AuditRecord> {
    SavedRecords(Msg(rejected), user.userId, ContextOf(Msg(rejected), user, env.invokeId, None, false, env.strData),
                 false, env.currentDate, env.formatDate, env.str)
    + SavedRecords(Plain(failureText), user.userId,
                   ContextOf(Plain(failureText), user, env.invokeId, None, false, env.strData),
                   true, env.currentDate, env.formatDate, env.str)
  }

  /** The audit log after a failed burst: the records before it, then the
      rejected input's records, then exactly one outcome record sent by
      `'ia'` that holds the failure text under the call's invoke id. */
  predicate AuditedFailure(before: seq<AuditRecord>, after: seq<AuditRecord>, text: string,
                           invokeId: string)
  {
    && |after| > |before| && after[..|before|] == before
    && after[|after| - 1].sender == "ia"
    && after[|after| - 1].message == Some(text)
    && after[|after| - 1].invokeId == invokeId
  }

  /** A completed result is a message from `sender`, of type `mt`, from the
      Jelou channel, carrying the burst's fragments. */
  predicate FromSender(d: Delivered, sender: Value, mt: MessageType) {
    d.Completed? ==>
      && sender == VStr(d.message.sender) && d.message.source == mt.Value()
      && d.message.provider == "jelou" && d.message.listedMessages == Some(d.listed)
  }

  lemma AppendOne(before: seq<AuditRecord>, middle: seq<AuditRecord>, last: seq<AuditRecord>)
    requires |last| == 1
    ensures var after := before + middle + last;
            |after| > |before| && after[..|before|] == before && after[|after| - 1] == last[0]
  {
    var after := before + middle + last;
    assert after[..|before|] == before;
  }

  /** `parse_message` after the aggregator has answered: build the message
      for a complete burst, save the two records of a failed one. */
  function Deliver(w: World, agg: AggregateResult, sender: Value, mt: MessageType, payload: Fields,
                   data: seq<(string, Value)>, mediaUrl: Value, user: User, env: Env)
    : (r: (Option<Parsed>, World))
    ensures r.1.data == w.data && r.1.flag == w.flag
    ensures r.0.Some? ==> r.0.value.isEnterprise == (user.typeUser == Typed(Enterprise))
                          && r.0.value.isEnterpriseFile == w.flag
    ensures (r.0.Some? && r.0.value.result.StillWaiting?) <==> agg.Waiting?
    ensures r.0.None? || !r.0.value.result.Failed? ==> r.1.records == w.records
    ensures r.0.Some? && r.0.value.result.Completed? ==>
              agg.Complete? && r.0.value.result.message.message == agg.message
              && r.0.value.result.listed == agg.listed
    ensures r.0.Some? ==> FromSender(r.0.value.result, sender, mt)
    ensures r.0.Some? && r.0.value.result.Failed? ==>
              agg.InteralFailure? && r.0.value.result.text == agg.message
              && AuditedFailure(w.records, r.1.records, agg.message, env.invokeId)
    ensures agg.InteralFailure? && agg.failureInput.None? ==> r == (None, w)
  {
    var isEnterprise := user.typeUser == Typed(Enterprise);
    var force := GetOr(payload, "forceAnonymous", VBool(false));
    var caption := GetOr(data, "caption", VNull);
    match agg
    case Waiting => (Some(Parsed(StillWaiting, isEnterprise, w.flag)), w)
    case Complete(text, listed) =>
      (match BuildMessage(sender, Some(text), mt, force, mediaUrl, caption, listed)
       case Raised(_) => (None, w)
       case Ok(m) => (Some(Parsed(Completed(m, listed), isEnterprise, w.flag)), w))
    case InteralFailure(text, input, listed) =>
      match BuildMessage(sender, input, mt, force, mediaUrl, caption, listed)
      case Raised(_) => (None, w)
      case Ok(rejected) =>
        var c := ContextOf(Plain(text), user, env.invokeId, None, false, env.strData);
        OutcomeSavesOne(Plain(text), user.userId, c, env.currentDate, env.formatDate, env.str);
        AppendOne(w.records,
                  SavedRecords(Msg(rejected), user.userId,
                               ContextOf(Msg(rejected), user, env.invokeId, None, false, env.strData),
                               false, env.currentDate, env.formatDate, env.str),
                  SavedRecords(Plain(text), user.userId, c, true, env.currentDate, env.formatDate, env.str));
        var w' := w.(records := w.records + FailureRecords(rejected, text, user, env));
        (Some(Parsed(Failed(text, input, listed), isEnterprise, w.flag)), w')
  }

  /** The steps of `parse_message` before the aggregator: the sender, the
      message type, the parsed fragment with its media URL, and whether the
      parse sets the enterprise-file flag; None when `parse_message` returns
      None on the way (a missing or empty sender, a user without a type, or
      an exception while parsing). */
  function Front(payload: Fields, user: User, ocr: OcrResults)
    : (r: Option<(Value, MessageType, Fragment, Value, bool)>)
    ensures r.Some? ==> Get(payload, "sender") == Some(r.value.0) && r.value.0 != VStr("")
                        && !user.typeUser.Unset?
    ensures r.Some? ==> DataOf(payload).Ok? && MessageTypeOf(payload) == Ok(r.value.1)
    ensures r.Some? ==> Dispatch(r.value.1, payload, user, ocr) == Ok((r.value.2, r.value.3, r.value.4))
    ensures r.Some? && r.value.4 ==> user.typeUser == Typed(Enterprise)
  {
    if !Has(payload, "sender") || user.typeUser.Unset? then None
    else
      var sender := Get(payload, "sender").value;
      if sender == VStr("") then None
      else match MessageTypeOf(payload)
        case Raised(_) => None
        case Ok(mt) =>
          match Dispatch(mt, payload, user, ocr)
          case Raised(_) => None
          case Ok((f, url, sets)) =>
            Some((sender, mt, f, url, sets))
  }

  /** `parse_message` from the aggregator on: buffer the fragment, aggregate
      if the burst is ready, then deliver. */
  function Buffered(w: World, sender: Value, mt: MessageType, f: Fragment, url: Value,
                    payload: Fields, data: seq<(string, Value)>, user: User, env: Env)
    : (r: (Option<Parsed>, World))
    ensures r.1.flag == w.flag
    ensures r.0.Some? ==> r.0.value.isEnterprise == (user.typeUser == Typed(Enterprise))
                          && r.0.value.isEnterpriseFile == w.flag
    ensures r.0.None? || !r.0.value.result.Failed? ==> r.1.records == w.records
    ensures r.0.Some? ==> FromSender(r.0.value.result, sender, mt)
    ensures r.0.Some? && r.0.value.result.Failed? ==>
              AuditedFailure(w.records, r.1.records, r.0.value.result.text, env.invokeId)
    ensures Incoming(f, mt.Value()).Raised? ==> r == (None, w)
  {
    match BufferSpec(w.data, Str(sender), f, mt.Value(), MediaOf(url), env.now)
    case Raised(_) => (None, w)
    case Ok(d2) =>
      var (agg, d3) := AggregateSpec(d2, Str(sender));
      match agg
      case Raised(_) => (None, w.(data := d3))
      case Ok(a) => Deliver(w.(data := d3), a, sender, mt, payload, data, url, user, env)
  }

  /** `parse_message` on the world: None for a missing or empty sender, a
      user without a type, or any exception along the way (whatever was
      written before it stays written). */
  function ParseSpec(w: World, payload: Fields, user: User, env: Env): (r: (Option<Parsed>, World))
    // only a failed burst writes to the audit log: the rejected input's
    // records, then one outcome record sent by 'ia' with the failure text
    ensures r.0.None? || !r.0.value.result.Failed? ==> r.1.records == w.records
    ensures r.0.Some? && r.0.value.result.Failed? ==>
              AuditedFailure(w.records, r.1.records, r.0.value.result.text, env.invokeId)
  {
    match Front(payload, user, env.ocr)
    case None => (None, w)
    case Some((sender, mt, f, url, sets)) =>
      Buffered(w.(flag := w.flag || sets), sender, mt, f, url, payload, DataOf(payload).value, user, env)
  }

  /** A payload without a sender or with an empty one, or a user without a
      type, changes nothing and returns None. */
  lemma IgnoredPayload(w: World, payload: Fields, user: User, env: Env)
    requires !Has(payload, "sender") || Get(payload, "sender") == Some(VStr("")) || user.typeUser.Unset?
    ensures ParseSpec(w, payload, user, env) == (None, w)
  {
  }

  /** Once set, the enterprise-file flag stays set; it is only ever set by
      an enterprise user's image or file; the result reports the flag as it
      is after the call. */
  lemma FlagSticky(w: World, payload: Fields, user: User, env: Env)
    ensures w.flag ==> ParseSpec(w, payload, user, env).1.flag
    ensures ParseSpec(w, payload, user, env).1.flag && !w.flag ==> user.typeUser == Typed(Enterprise)
    ensures var (r, w') := ParseSpec(w, payload, user, env);
            r.Some? ==> r.value.isEnterpriseFile == w'.flag
                        && r.value.isEnterprise == (user.typeUser == Typed(Enterprise))
  {
  }

  /** A complete burst becomes a `Message` from the payload's sender, of the
      payload's type, carrying the burst's fragments. */
  lemma CompleteBecomesMessage(w: World, payload: Fields, user: User, env: Env)
    requires ParseSpec(w, payload, user, env).0.Some?
    requires ParseSpec(w, payload, user, env).0.value.result.Completed?
    ensures var d := ParseSpec(w, payload, user, env).0.value.result;
            && Get(payload, "sender") == Some(VStr(d.message.sender))
            && MessageTypeOf(payload).Ok? && d.message.source == MessageTypeOf(payload).value.Value()
            && d.message.listedMessages == Some(d.listed)
            && d.message.provider == "jelou"
  {
  }

  class JelouChannel {
    /** `is_enterprise_file`. */
    var isEnterpriseFile: bool
    const provider: string := "jelou"

    constructor()
      ensures !isEnterpriseFile
    {
      isEnterpriseFile := false;
    }

    /** `_parse_contacts_message`, one contact at a time. */
    method ParseContactsMessage(payload: Fields) returns (r: Outcome<string>)
      ensures r == ContactsText(payload)
    {
      var data := DataOf(payload);
      if data.Raised? {
        return Raised(data.error);
      }
      var contacts := Iterate(GetOr(data.value, "contacts", VList([])));
      if contacts.Raised? {
        return Raised(contacts.error);
      }
      var items := contacts.value;
      var incomingMessages: seq<string> := [];
      var i := 0;
      while i < |items|
        invariant 0 <= i <= |items|
        invariant ContactSentences(items[..i]) == Ok(incomingMessages)
      {
        var s := ContactSentence(items[i]);
        if s.Raised? {
          OutcomesFirstRaise(items, ContactSentence, i);
          return Raised(s.error);
        }
        OutcomesStep(items, ContactSentence, i);
        incomingMessages := incomingMessages + [s.value];
        i := i + 1;
      }
      assert items[..i] == items;
      return Ok(Join(incomingMessages, " y "));
    }

    /** `_message_parser_dispatcher`, setting the flag as the image and
        file parsers do. */
    method Dispatcher(mt: MessageType, payload: Fields, user: User, ocr: OcrResults)
      returns (r: Outcome<(Fragment, Value)>)
      modifies this
      ensures var d := Dispatch(mt, payload, user, ocr);
              && (r.Ok? <==> d.Ok?)
              && (r.Ok? ==> r.value == (d.value.0, d.value.1))
              && (r.Raised? ==> r.error == d.error)
              && isEnterpriseFile == (old(isEnterpriseFile) || (d.Ok? && d.value.2))
    {
      if mt == CONTACTS {
        var s := ParseContactsMessage(payload);
        if s.Raised? {
          return Raised(s.error);
        }
        return Ok((Text(Some(s.value)), VNull));
      }
      var d := Dispatch(mt, payload, user, ocr);
      if d.Raised? {
        return Raised(d.error);
      }
      if d.value.2 {
        isEnterpriseFile := true;
      }
      r := Ok((d.value.0, d.value.1));
    }

    /** `parse_message` with the webhook payload, the store the aggregator
        uses and the audit log; the debounce sleep is left out. */
    method ParseMessage(payload: Fields, user: User, store: Store, log: AuditLog, env: Env)
      returns (r: Option<Parsed>)
      modifies this, store, log
      ensures (r, World(store.data, log.records, isEnterpriseFile))
              == ParseSpec(World(old(store.data), old(log.records), old(isEnterpriseFile)), payload, user, env)
    {
      if !Has(payload, "sender") || user.typeUser.Unset? {
        return None;
      }
      var sender := Get(payload, "sender").value;
      if sender == VStr("") {
        return None;
      }
      var mt := MessageTypeOf(payload);
      if mt.Raised? {
        return None;
      }
      var messageType := mt.value;
      ghost var d := Dispatch(messageType, payload, user, env.ocr);
      var parsed := Dispatcher(messageType, payload, user, env.ocr);
      if parsed.Raised? {
        return None;
      }
      var (incomingMessage, mediaUrl) := parsed.value;
      assert Front(payload, user, env.ocr) == Some((sender, messageType, incomingMessage, mediaUrl, d.value.2));
      r := BufferAndAggregate(sender, messageType, incomingMessage, mediaUrl, payload, DataOf(payload).value,
                              user, store, log, env);
    }

    /** The rest of `parse_message` once the fragment is parsed. */
    method BufferAndAggregate(sender: Value, mt: MessageType, f: Fragment, mediaUrl: Value,
                              payload: Fields, data: seq<(string, Value)>, user: User, store: Store,
                              log: AuditLog, env: Env)
      returns (r: Option<Parsed>)
      modifies store, log
      ensures (r, World(store.data, log.records, isEnterpriseFile))
              == Buffered(World(old(store.data), old(log.records), isEnterpriseFile), sender, mt, f, mediaUrl,
                          payload, data, user, env)
    {
      var aggregator := new AggregatorService(store);
      var buffered := aggregator.BufferMessage(Str(sender), f, mt.Value(), MediaOf(mediaUrl), env.now);
      if buffered.Raised? {
        return None;
      }
      var aggregated := aggregator.AggregateIfReady(Str(sender));
      if aggregated.Raised? {
        return None;
      }
      r := DeliverAggregated(aggregated.value, sender, mt, payload, data, mediaUrl, user, log, env, store.data);
    }

    /** Build the message of a complete burst, or save the two records of a
        failed one. */
    method DeliverAggregated(agg: AggregateResult, sender: Value, mt: MessageType, payload: Fields,
                             data: seq<(string, Value)>, mediaUrl: Value, user: User,
                             log: AuditLog, env: Env, ghost storeData: map<string, Entry>)
      returns (r: Option<Parsed>)
      modifies log
      ensures (r, World(storeData, log.records, isEnterpriseFile))
              == Deliver(World(storeData, old(log.records), isEnterpriseFile), agg, sender, mt, payload, data,
                         mediaUrl, user, env)
    {
      var isEnterprise := user.typeUser == Typed(Enterprise);
      var forceAnonymous := GetOr(payload, "forceAnonymous", VBool(false));
      var caption := GetOr(data, "caption", VNull);
      match agg {
      case Waiting =>
        r := Some(Parsed(StillWaiting, isEnterprise, isEnterpriseFile));
      case Complete(text, listed) =>
        var m := BuildMessage(sender, Some(text), mt, forceAnonymous, mediaUrl, caption, listed);
        if m.Raised? {
          return None;
        }
        r := Some(Parsed(Completed(m.value, listed), isEnterprise, isEnterpriseFile));
      case InteralFailure(text, input, listed) =>
        var rejected := BuildMessage(sender, input, mt, forceAnonymous, mediaUrl, caption, listed);
        if rejected.Raised? {
          return None;
        }
        ghost var before := log.records;
        SaveMessage(log, Msg(rejected.value), user.userId, env.invokeId, user, None, false, false,
                    env.currentDate, env.formatDate, env.str, env.strData);
        SaveMessage(log, Plain(text), user.userId, env.invokeId, user, None, false, true,
                    env.currentDate, env.formatDate, env.str, env.strData);
        assert log.records == before + FailureRecords(rejected.value, text, user, env);
        r := Some(Parsed(Failed(text, input, listed), isEnterprise, isEnterpriseFile));
      }
    }
  }
}
