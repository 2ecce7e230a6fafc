/** Helpers over the agent's chat history: trimming it to the last turns,
    collecting what the tools returned and what they were called with, and
    finding the AI turns the content filter flagged. */
module ToolUtil {
  import opened Text
  import opened Dicts
  import opened Values

  /** The history as the agent keeps it: human turns, AI turns with their
      extra arguments and response metadata, tool results, and any other
      kind of message (system prompts). */
  datatype ChatMessage =
    | Human(content: Value)
    | AI(content: Value, additionalKwargs: Fields, responseMetadata: Fields)
    | Tool(content: Value)
    | Other(content: Value)

  const MaxLength: nat := 25

  /** `trim_messages`: the whole history when it has at most `MAX_LENGTH`
      messages, otherwise its last `MAX_LENGTH`. */
  function TrimMessages<T>(messages: seq<T>): (r: seq<T>)
    ensures |r| == if |messages| <= MaxLength then |messages| else MaxLength
    ensures r == messages[|messages| - |r|..]
  {
    if |messages| > MaxLength then messages[|messages| - MaxLength..] else messages
  }

  /** Trimming twice trims no more than trimming once. */
  lemma TrimIdempotent<T>(messages: seq<T>)
    ensures TrimMessages(TrimMessages(messages)) == TrimMessages(messages)
  {
  }

  /** Where Python's `s[start:]` begins for a list of length `n`: a negative
      start counts from the end, and both ends are clamped. */
  function SliceStart(n: nat, start: int): (k: nat)
    ensures k <= n
    ensures 0 <= start <= n ==> k == start
    ensures start > n ==> k == n
    ensures start < 0 ==> k == if n + start < 0 then 0 else n + start
  {
    if start < 0 then (if n + start < 0 then 0 else n + start)
    else if start > n then n
    else start
  }

  // ----- get_tools_result -----

  /** The contents of the tool results in `ms`, in order. */
  function ToolContents(ms: seq<ChatMessage>): seq<Value> {
    if ms == [] then []
    else
      var n := |ms| - 1;
      ToolContents(ms[..n]) + (if ms[n].Tool? then [ms[n].content] else [])
  }

  /** The tool contents of two pieces of history are those of the first
      followed by those of the second. */
  lemma {:induction false} ToolContentsAppend(a: seq<ChatMessage>, b: seq<ChatMessage>)
    ensures ToolContents(a + b) == ToolContents(a) + ToolContents(b)
    decreases |b|
  {
    if b == [] {
      assert a + b == a;
    } else {
      var n := |b| - 1;
      ToolContentsAppend(a, b[..n]);
      assert (a + b)[..|a + b| - 1] == a + b[..n];
      assert (a + b)[|a + b| - 1] == b[n];
    }
  }

  /** A value is among the tool contents exactly when a tool message holds
      it, and there is at most one per message. */
  lemma {:induction false} ToolContentsMembers(ms: seq<ChatMessage>)
    ensures |ToolContents(ms)| <= |ms|
    ensures forall c :: c in ToolContents(ms) <==> Tool(c) in ms
  {
    if ms != [] {
      var n := |ms| - 1;
      ToolContentsMembers(ms[..n]);
      assert ms == ms[..n] + [ms[n]];
    }
  }

  /** `get_tools_result`: the contents of the tool messages from
      `last_human_index` on. */
  method GetToolsResult(messages: seq<ChatMessage>, lastHumanIndex: int) returns (results: seq<Value>)
    ensures results == ToolContents(messages[SliceStart(|messages|, lastHumanIndex)..])
  {
    var tail := messages[SliceStart(|messages|, lastHumanIndex)..];
    results := [];
    var i := 0;
    while i < |tail|
      invariant 0 <= i <= |tail|
      invariant results == ToolContents(tail[..i])
    {
      assert tail[..i + 1][..i] == tail[..i];
      if tail[i].Tool? {
        results := results + [tail[i].content];
      }
      i := i + 1;
    }
    assert tail[..i] == tail;
  }

  // ----- get_tools_log -----

  /** One entry of the log: the tool's name and its arguments. */
  datatype ToolInvocation = ToolInvocation(toolName: Value, toolArgs: Value)

  /** `v[k]` on a JSON value: a missing key raises `KeyError`, a value that
      is not a dict `TypeError`. */
  function Subscript(v: Value, k: string): (r: Outcome<Value>)
    ensures r.Ok? <==> v.VObj? && Has(v.fields, k)
    ensures r.Ok? ==> Some(r.value) == Get(v.fields, k)
  {
    if !v.VObj? then Raised("TypeError: indices must be integers")
    else if !Has(v.fields, k) then Raised("KeyError: '" + k + "'")
    else Ok(Get(v.fields, k).value)
  }

  /** The log entry of one tool call. */
  function Invocation(tool: Value): (r: Outcome<ToolInvocation>)
    ensures r.Ok? ==> Subscript(tool, "function").Ok?
                      && Subscript(Subscript(tool, "function").value, "name") == Ok(r.value.toolName)
                      && Subscript(Subscript(tool, "function").value, "arguments") == Ok(r.value.toolArgs)
  {
    var function_ :- Subscript(tool, "function");
    var name :- Subscript(function_, "name");
    var args :- Subscript(function_, "arguments");
    Ok(ToolInvocation(name, args))
  }

  /** The log entries of a list of tool calls, in order; the first call
      that raises ends it. */
  function Invocations(calls: seq<Value>): (r: Outcome<seq<ToolInvocation>>)
    ensures r.Ok? ==> |r.value| == |calls|
  {
    if calls == [] then Ok([])
    else
      var n := |calls| - 1;
      var done :- Invocations(calls[..n]);
      var one :- Invocation(calls[n]);
      Ok(done + [one])
  }

  /** The log of a list of calls exists exactly when every call has an
      entry, and then its i-th entry is that of the i-th call. */
  lemma {:induction false} InvocationsItems(calls: seq<Value>)
    ensures Invocations(calls).Ok? <==> forall i :: 0 <= i < |calls| ==> Invocation(calls[i]).Ok?
    ensures Invocations(calls).Ok? ==>
              forall i :: 0 <= i < |calls| ==> Invocation(calls[i]) == Ok(Invocations(calls).value[i])
  {
    if calls != [] {
      var n := |calls| - 1;
      InvocationsItems(calls[..n]);
      assert forall i :: 0 <= i < n ==> calls[..n][i] == calls[i];
    }
  }

  /** The log entries of one message: an AI message's `tool_calls`, if it
      has any; nothing for any other message. */
  function CallsOf(m: ChatMessage): (r: Outcome<seq<ToolInvocation>>)
    ensures !m.AI? || !Has(m.additionalKwargs, "tool_calls") ==> r == Ok([])
  {
    if m.AI? && Has(m.additionalKwargs, "tool_calls") then
      var calls :- Iterate(Get(m.additionalKwargs, "tool_calls").value);
      Invocations(calls)
    else Ok([])
  }

  /** The entries `f` gives the items, in order, concatenated; the first
      item that raises ends the loop with its error. */
  function Flatten<X, Y>(xs: seq<X>, f: X -> Outcome<seq<Y>>): Outcome<seq<Y>> {
    if xs == [] then Ok([])
    else
      var n := |xs| - 1;
      var done :- Flatten(xs[..n], f);
      var more :- f(xs[n]);
      Ok(done + more)
  }

  /** The log of a piece of history, message by message. */
  function ToolsLog(ms: seq<ChatMessage>): Outcome<seq<ToolInvocation>> {
    Flatten(ms, CallsOf)
  }

  /** One more item: its entries follow those so far, unless the items so
      far or the new one raise. */
  lemma FlattenStep<X, Y>(xs: seq<X>, f: X -> Outcome<seq<Y>>)
    requires xs != []
    ensures var init := xs[..|xs| - 1];
            var more := f(xs[|xs| - 1]);
            Flatten(xs, f) == if Flatten(init, f).Raised? then Flatten(init, f)
                              else if more.Raised? then Raised(more.error)
                              else Ok(Flatten(init, f).value + more.value)
  {
  }

  /** An error in the first part of the items is the one the whole raises. */
  lemma {:induction false} FlattenRaisedSticky<X, Y>(a: seq<X>, b: seq<X>, f: X -> Outcome<seq<Y>>)
    requires Flatten(a, f).Raised?
    ensures Flatten(a + b, f) == Flatten(a, f)
    decreases |b|
  {
    if b == [] {
      assert a + b == a;
    } else {
      var n := |b| - 1;
      var ab := a + b;
      FlattenRaisedSticky(a, b[..n], f);
      assert ab[..|ab| - 1] == a + b[..n];
      FlattenStep(ab, f);
    }
  }

  /** The entries of two parts that flatten without error are those of the
      first followed by those of the second. */
  lemma {:induction false} FlattenAppend<X, Y>(a: seq<X>, b: seq<X>, f: X -> Outcome<seq<Y>>)
    requires Flatten(a, f).Ok?
    ensures Flatten(b, f).Raised? ==> Flatten(a + b, f) == Flatten(b, f)
    ensures Flatten(b, f).Ok? ==> Flatten(a + b, f).Ok?
                                  && Flatten(a + b, f).value == Flatten(a, f).value + Flatten(b, f).value
    decreases |b|
  {
    if b == [] {
      assert a + b == a;
    } else {
      var n := |b| - 1;
      var ab := a + b;
      FlattenAppend(a, b[..n], f);
      assert ab[..|ab| - 1] == a + b[..n];
      assert ab[|ab| - 1] == b[n];
      FlattenStep(ab, f);
      FlattenStep(b, f);
      if Flatten(b, f).Ok? {
        var x, y, z := Flatten(a, f).value, Flatten(b[..n], f).value, f(b[n]).value;
        assert Flatten(ab, f).value == (x + y) + z;
        assert (x + y) + z == x + (y + z);
      }
    }
  }

  /** A history without AI messages calling tools logs nothing. */
  lemma {:induction false} ToolsLogWithoutCalls(ms: seq<ChatMessage>)
    requires forall i :: 0 <= i < |ms| ==> !ms[i].AI? || !Has(ms[i].additionalKwargs, "tool_calls")
    ensures ToolsLog(ms).Ok? && ToolsLog(ms).value == []
  {
    if ms != [] {
      var n := |ms| - 1;
      assert forall i :: 0 <= i < n ==> ms[..n][i] == ms[i];
      ToolsLogWithoutCalls(ms[..n]);
      FlattenStep(ms, CallsOf);
      assert CallsOf(ms[n]).value == [];
    }
  }

  /** `get_tools_log`: one entry per tool call of the AI messages from
      `last_human_index` on. */
  method GetToolsLog(messages: seq<ChatMessage>, lastHumanIndex: int) returns (r: Outcome<seq<ToolInvocation>>)
    ensures r == ToolsLog(messages[SliceStart(|messages|, lastHumanIndex)..])
  {
    var tail := messages[SliceStart(|messages|, lastHumanIndex)..];
    var invocations: seq<ToolInvocation> := [];
    var i := 0;
    while i < |tail|
      invariant 0 <= i <= |tail|
      invariant ToolsLog(tail[..i]) == Ok(invocations)
    {
      assert tail[..i + 1][..i] == tail[..i];
      var msg := tail[i];
      FlattenStep(tail[..i + 1], CallsOf);
      if msg.AI? && Has(msg.additionalKwargs, "tool_calls") {
        var calls := Iterate(Get(msg.additionalKwargs, "tool_calls").value);
        var logged: Outcome<seq<ToolInvocation>>;
        if calls.Raised? {
          logged := Raised(calls.error);
        } else {
          logged := LogCalls(calls.value);
        }
        assert logged == CallsOf(msg);
        if logged.Raised? {
          FlattenRaisedSticky(tail[..i + 1], tail[i + 1..], CallsOf);
          assert tail[..i + 1] + tail[i + 1..] == tail;
          return Raised(logged.error);
        }
        invocations := invocations + logged.value;
      } else {
        assert invocations + [] == invocations;
      }
      i := i + 1;
    }
    assert tail[..i] == tail;
    return Ok(invocations);
  }

  /** The inner loop of `get_tools_log` over one message's tool calls. */
  method LogCalls(calls: seq<Value>) returns (r: Outcome<seq<ToolInvocation>>)
    ensures r == Invocations(calls)
  {
    var logged: seq<ToolInvocation> := [];
    var j := 0;
    while j < |calls|
      invariant 0 <= j <= |calls|
      invariant Invocations(calls[..j]) == Ok(logged)
    {
      assert calls[..j + 1][..j] == calls[..j];
      var one := Invocation(calls[j]);
      if one.Raised? {
        InvocationsFirstRaise(calls, j);
        return Raised(one.error);
      }
      logged := logged + [one.value];
      j := j + 1;
    }
    assert calls[..j] == calls;
    return Ok(logged);
  }

  /** Once the calls before `j` are logged, a call `j` that raises makes the
      whole list raise its error. */
  lemma {:induction false} InvocationsFirstRaise(calls: seq<Value>, j: nat)
    requires j < |calls| && Invocations(calls[..j]).Ok? && Invocation(calls[j]).Raised?
    ensures Invocations(calls) == Raised(Invocation(calls[j]).error)
    decreases |calls|
  {
    var n := |calls| - 1;
    if j == n {
      assert calls[..n] == calls[..j];
    } else {
      assert calls[..n][..j] == calls[..j];
      assert calls[..n][j] == calls[j];
      InvocationsFirstRaise(calls[..n], j);
    }
  }

  // ----- filtered_bad_words_from_ai -----

  /** The metadata of an AI message: its `response_metadata` when not
      empty, otherwise the one among its extra arguments, or `{}`. */
  function MetaOf(m: ChatMessage): Value
    requires m.AI?
  {
    if m.responseMetadata != [] then VObj(m.responseMetadata)
    else if Has(m.additionalKwargs, "response_metadata") then Get(m.additionalKwargs, "response_metadata").value
    else VObj([])
  }

  /** The filter results the loop looks at (`VNull` for None): the
      metadata's `content_filter_results`, or when that is missing or empty,
      those of the first `prompt_filter_results` entry. */
  function FilterResults(meta: Value): Outcome<Value> {
    if !meta.VObj? then Raised("AttributeError: object has no attribute 'get'")
    else
      var own := GetOr(meta.fields, "content_filter_results", VNull);
      if Values.Truthy(own) then Ok(own)
      else
        var prompt := GetOr(meta.fields, "prompt_filter_results", VNull);
        if prompt.VList? && prompt.items != [] then
          if prompt.items[0].VObj? then Ok(GetOr(prompt.items[0].fields, "content_filter_results", VNull))
          else Raised("AttributeError: object has no attribute 'get'")
        else Ok(own)
  }

  /** When the metadata has no filter results of its own, the first prompt
      filter entry's results are used. */
  lemma PromptFilterFallback(meta: Fields, entries: seq<Value>)
    requires !Has(meta, "content_filter_results")
    requires Get(meta, "prompt_filter_results") == Some(VList(entries))
    requires entries != [] && entries[0].VObj?
    ensures FilterResults(VObj(meta)) == Ok(GetOr(entries[0].fields, "content_filter_results", VNull))
  {
  }

  /** Some entry of the filter results flags content. */
  function AnyFlags(items: seq<(string, Value)>): (r: bool)
    ensures r <==> exists i :: 0 <= i < |items| && Flags(items[i].1)
  {
    if items == [] then false
    else
      var n := |items| - 1;
      assert forall i :: 0 <= i < n ==> items[..n][i] == items[i];
      AnyFlags(items[..n]) || Flags(items[n].1)
  }

  /** Whether an AI message was flagged by the content filter; results that
      are truthy but not a dict raise on `.items()`. */
  function Flagged(m: ChatMessage): (r: Outcome<bool>)
    requires m.AI?
    // a message is flagged only when its filter results are a mapping
    ensures FilterResults(MetaOf(m)).Raised? ==> r.Raised?
    ensures r == Ok(true) ==> FilterResults(MetaOf(m)).Ok? && FilterResults(MetaOf(m)).value.VObj?
    ensures r.Ok? ==> FilterResults(MetaOf(m)).Ok?
                      && (r.value <==> var results := FilterResults(MetaOf(m)).value;
                                       results.VObj? && Values.Truthy(results) && AnyFlags(results.fields))
  {
    var results :- FilterResults(MetaOf(m));
    if !Values.Truthy(results) then Ok(false)
    else if !results.VObj? then Raised("AttributeError: object has no attribute 'items'")
    else Ok(AnyFlags(results.fields))
  }

  /** The flagged AI messages of a history, in order. */
  function FilteredMessages(ms: seq<ChatMessage>): (r: Outcome<seq<ChatMessage>>)
    // what is kept is a sub-list of AI messages of the history
    ensures r.Ok? ==> |r.value| <= |ms|
    ensures r.Ok? ==> forall i :: 0 <= i < |r.value| ==> r.value[i].AI? && r.value[i] in ms
  {
    if ms == [] then Ok([])
    else
      var n := |ms| - 1;
      var done :- FilteredMessages(ms[..n]);
      if !ms[n].AI? then Ok(done)
      else
        var flagged :- Flagged(ms[n]);
        Ok(if flagged then done + [ms[n]] else done)
  }

  /** Whether a message is kept: an AI message the filter flagged. */
  predicate Kept(m: ChatMessage) {
    m.AI? && Flagged(m) == Ok(true)
  }

  /** One more message: kept after the result so far when flagged, unless
      the result so far or the message raises. */
  lemma FilteredStep(ms: seq<ChatMessage>)
    requires ms != []
    ensures var init := ms[..|ms| - 1];
            var m := ms[|ms| - 1];
            FilteredMessages(ms) == if FilteredMessages(init).Raised? then FilteredMessages(init)
                                    else if m.AI? && Flagged(m).Raised? then Raised(Flagged(m).error)
                                    else Ok(FilteredMessages(init).value + (if Kept(m) then [m] else []))
  {
    var init := ms[..|ms| - 1];
    if FilteredMessages(init).Ok? {
      assert FilteredMessages(init).value + [] == FilteredMessages(init).value;
    }
  }

  /** A history whose first part raises raises the same error. */
  lemma {:induction false} FilteredRaisedSticky(a: seq<ChatMessage>, b: seq<ChatMessage>)
    requires FilteredMessages(a).Raised?
    ensures FilteredMessages(a + b) == FilteredMessages(a)
    decreases |b|
  {
    if b == [] {
      assert a + b == a;
    } else {
      var n := |b| - 1;
      var ab := a + b;
      FilteredRaisedSticky(a, b[..n]);
      assert ab[..|ab| - 1] == a + b[..n];
      FilteredStep(ab);
    }
  }

  /** When no message raises, the result holds exactly the flagged AI
      messages, each at most once per place in the history. */
  lemma {:induction false} FilteredMembers(ms: seq<ChatMessage>)
    requires FilteredMessages(ms).Ok?
    ensures |FilteredMessages(ms).value| <= |ms|
    ensures forall m :: m in FilteredMessages(ms).value <==> m in ms && Kept(m)
  {
    if ms != [] {
      var n := |ms| - 1;
      var init := ms[..n];
      FilteredStep(ms);
      FilteredMembers(init);
      var r0 := FilteredMessages(init).value;
      var extra := if Kept(ms[n]) then [ms[n]] else [];
      assert FilteredMessages(ms).value == r0 + extra;
      assert ms == init + [ms[n]];
      forall m ensures m in r0 + extra <==> m in ms && Kept(m) {
        assert m in ms <==> m in init || m == ms[n];
      }
    }
  }

  /** The check of one AI message in `filtered_bad_words_from_ai`: its
      filter results, then a scan of their entries that stops at the first
      one flagging content. */
  method CheckFlagged(msg: ChatMessage) returns (r: Outcome<bool>)
    requires msg.AI?
    ensures r == Flagged(msg)
  {
    var results := FilterResults(MetaOf(msg));
    if results.Raised? {
      return Raised(results.error);
    }
    if !Values.Truthy(results.value) {
      return Ok(false);
    }
    if !results.value.VObj? {
      return Raised("AttributeError: object has no attribute 'items'");
    }
    var items := results.value.fields;
    var j := 0;
    while j < |items|
      invariant 0 <= j <= |items|
      invariant forall k :: 0 <= k < j ==> !Flags(items[k].1)
    {
      if items[j].1.VObj? && Get(items[j].1.fields, "filtered") == Some(VBool(true)) {
        return Ok(true);
      }
      j := j + 1;
    }
    return Ok(false);
  }

  /** `filtered_bad_words_from_ai`: the flagged AI messages, in order. */
  method FilteredBadWordsFromAi(messages: seq<ChatMessage>) returns (r: Outcome<seq<ChatMessage>>)
    ensures r == FilteredMessages(messages)
  {
    var filtered: seq<ChatMessage> := [];
    var i := 0;
    while i < |messages|
      invariant 0 <= i <= |messages|
      invariant FilteredMessages(messages[..i]) == Ok(filtered)
    {
      assert messages[..i + 1][..i] == messages[..i];
      var msg := messages[i];
      FilteredStep(messages[..i + 1]);
      if msg.AI? {
        var flagged := CheckFlagged(msg);
        if flagged.Raised? {
          FilteredRaisedSticky(messages[..i + 1], messages[i + 1..]);
          assert messages[..i + 1] + messages[i + 1..] == messages;
          return Raised(flagged.error);
        }
        if flagged.value {
          filtered := filtered + [msg];
        }
      }
      i := i + 1;
    }
    assert messages[..i] == messages;
    return Ok(filtered);
  }
}
