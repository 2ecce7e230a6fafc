/** The reply to a request the content filter rejected: the reasons it
    gives, read from the custom blocklists and the generic filters, in the
    user's language. */
module Refusal {
  import opened Text
  import opened Dicts
  import opened Values

  /** `CustomBlocklistEnum`: each member's name and its label. */
  const CustomBlocklists: seq<(string, string)> := [
    ("AbuseList", "abusos"),
    ("RudenessList", "lenguaje grosero"),
    ("DiscriminatoryList", "lenguaje discriminatorio"),
    ("SexualList", "contenido sexual"),
    ("ViolenceList", "violencia")]

  /** `GenericFilterEnum`: each member's name and its label. */
  const GenericFilters: seq<(string, string)> := [
    ("sexual", "contenido sexual inapropiado"),
    ("hate", "discurso de odio"),
    ("self_harm", "autolesiones"),
    ("violence", "violencia"),
    ("jailbreak", "evasión de políticas de seguridad")]

  // ----- custom blocklists -----

  /** The label one blocklist detail contributes: its member's label when
      its `filtered` is `True` and its `id` names a member. A detail that is
      not a dict has no `.get`; an `id` that is a list or a dict cannot be
      looked up among the members. */
  function DetailLabel(detail: Value): (r: Outcome<Option<string>>)
    ensures r.Ok? && r.value.Some? <==>
              detail.VObj? && GetOr(detail.fields, "filtered", VBool(false)) == VBool(true)
              && Get(detail.fields, "id").Some? && Get(detail.fields, "id").value.VStr?
              && Has(CustomBlocklists, Get(detail.fields, "id").value.s)
    ensures r.Ok? && r.value.Some? ==> Some(r.value.value) == Get(CustomBlocklists, Get(detail.fields, "id").value.s)
  {
    if !detail.VObj? then Raised("AttributeError: object has no attribute 'get'")
    else if GetOr(detail.fields, "filtered", VBool(false)) != VBool(true) then Ok(None)
    else
      match Get(detail.fields, "id")
      case None => Ok(None)
      case Some(id) =>
        if id.VStr? then
          if Has(CustomBlocklists, id.s) then Ok(Some(Get(CustomBlocklists, id.s).value)) else Ok(None)
        else if id.VList? || id.VObj? then Raised("TypeError: unhashable type")
        else Ok(None)
  }

  /** The labels `labelOf` gives the details, in order; the first detail
      that raises ends the comprehension. */
  function CollectLabels(details: seq<Value>, labelOf: Value -> Outcome<Option<string>>): (r: Outcome<seq<string>>)
    ensures r.Raised? <==> exists i :: 0 <= i < |details| && labelOf(details[i]).Raised?
    ensures r.Ok? ==> |r.value| <= |details|
  {
    if details == [] then Ok([])
    else
      var n := |details| - 1;
      var done :- CollectLabels(details[..n], labelOf);
      var found :- labelOf(details[n]);
      Ok(if found.Some? then done + [found.value] else done)
  }

  /** When no detail raises, a label is collected exactly when some detail
      gives it, and there is at most one per detail. */
  lemma {:induction false} CollectLabelsMembers(details: seq<Value>, labelOf: Value -> Outcome<Option<string>>)
    requires CollectLabels(details, labelOf).Ok?
    ensures |CollectLabels(details, labelOf).value| <= |details|
    ensures forall l :: l in CollectLabels(details, labelOf).value <==>
              exists i :: 0 <= i < |details| && labelOf(details[i]) == Ok(Some(l))
  {
    if details != [] {
      var n := |details| - 1;
      var init := details[..n];
      CollectLabelsMembers(init, labelOf);
      assert forall i :: 0 <= i < n ==> init[i] == details[i];
      forall l | exists i :: 0 <= i < |details| && labelOf(details[i]) == Ok(Some(l))
        ensures l in CollectLabels(details, labelOf).value
      {
        var i :| 0 <= i < |details| && labelOf(details[i]) == Ok(Some(l));
        if i < n {
          assert labelOf(init[i]) == Ok(Some(l));
        }
      }
    }
  }

  /** The first detail that raises makes the whole comprehension raise. */
  lemma {:induction false} CollectLabelsRaises(details: seq<Value>, labelOf: Value -> Outcome<Option<string>>, i: nat)
    requires i < |details| && labelOf(details[i]).Raised?
    ensures CollectLabels(details, labelOf).Raised?
  {
    var n := |details| - 1;
    if i < n {
      assert details[..n][i] == details[i];
      CollectLabelsRaises(details[..n], labelOf, i);
    }
  }

  /** `_process_custom_blocklists`: nothing for a value that is not a dict,
      that has no `details`, or whose `filtered` is not truthy; otherwise the
      labels of the flagged details naming a member. */
  function ProcessCustomBlocklists(blocklists: Value): (r: Outcome<seq<string>>)
    ensures (|| !blocklists.VObj? || !Has(blocklists.fields, "details")
             || !Values.Truthy(GetOr(blocklists.fields, "filtered", VBool(false)))) ==> r == Ok([])
  {
    if !blocklists.VObj? || !Has(blocklists.fields, "details") then Ok([])
    else if !Values.Truthy(GetOr(blocklists.fields, "filtered", VBool(false))) then Ok([])
    else
      var details :- Iterate(Get(blocklists.fields, "details").value);
      CollectLabels(details, DetailLabel)
  }

  /** With `filtered` truthy and `details` a list, a label is reported
      exactly when some detail flagged `True` has an `id` naming the member
      with that label; a detail that is not a dict makes the whole call
      raise. */
  lemma CustomBlocklistMembers(blocklists: Value)
    requires blocklists.VObj? && Has(blocklists.fields, "details")
    requires Values.Truthy(GetOr(blocklists.fields, "filtered", VBool(false)))
    requires Get(blocklists.fields, "details").value.VList?
    ensures var details := Get(blocklists.fields, "details").value.items;
            var r := ProcessCustomBlocklists(blocklists);
            && ((exists i :: 0 <= i < |details| && !details[i].VObj?) ==> r.Raised?)
            && (r.Ok? ==> forall l :: l in r.value <==>
                  exists i :: 0 <= i < |details| && details[i].VObj?
                              && GetOr(details[i].fields, "filtered", VBool(false)) == VBool(true)
                              && Get(details[i].fields, "id").Some? && Get(details[i].fields, "id").value.VStr?
                              && Get(CustomBlocklists, Get(details[i].fields, "id").value.s) == Some(l))
  {
    var details := Get(blocklists.fields, "details").value.items;
    if i :| 0 <= i < |details| && !details[i].VObj? {
      CollectLabelsRaises(details, DetailLabel, i);
    }
    if ProcessCustomBlocklists(blocklists).Ok? {
      CollectLabelsMembers(details, DetailLabel);
    }
  }

  // ----- generic filters -----

  /** Whether a filter-result entry contributes a generic label: it is not
      the blocklists entry, it flags content and it names a member. */
  predicate GenericHit(entry: (string, Value)) {
    entry.0 != "custom_blocklists" && Flags(entry.1) && Has(GenericFilters, entry.0)
  }

  /** The label a filter-result entry contributes, if it is a hit. */
  function GenericLabel(entry: (string, Value)): (r: Option<string>)
    ensures r.Some? <==> GenericHit(entry)
    ensures r.Some? ==> Get(GenericFilters, entry.0) == r
  {
    if GenericHit(entry) then Get(GenericFilters, entry.0) else None
  }

  /** `_process_generic_filters`: the labels of the entries that are hits,
      in order. */
  function ProcessGenericFilters(results: seq<(string, Value)>): (r: seq<string>)
    ensures |r| <= |results|
  {
    FilterMap(results, GenericLabel)
  }

  /** A generic label is reported exactly when some entry that is a hit
      names its member. */
  lemma GenericMembers(results: seq<(string, Value)>)
    ensures forall l :: l in ProcessGenericFilters(results) <==>
              exists i :: 0 <= i < |results| && GenericHit(results[i])
                          && Get(GenericFilters, results[i].0) == Some(l)
  {
    FilterMapMembers(results, GenericLabel);
    forall l | exists i :: 0 <= i < |results| && GenericHit(results[i]) && Get(GenericFilters, results[i].0) == Some(l)
      ensures l in ProcessGenericFilters(results)
    {
      var i :| 0 <= i < |results| && GenericHit(results[i]) && Get(GenericFilters, results[i].0) == Some(l);
      assert GenericLabel(results[i]) == Some(l);
    }
  }

  // ----- the reply -----

  // The two messages below are written with their first words apart so that
  // their first characters are visible to the prover, which tells them apart.
  const RetryMessage: string :=
    "Estoy" + " teniendo problemas para responder tu pregunta. Por favor, intenta de nuevo, con otras palabras"

  const ApologyLead: string := "Lo siento" + ", no puedo procesar tu mensaje porque:\nTu mensaje esta relacionado con: "
  const ApologyTail: string := ".\nPor favor, reformula tu mensaje de manera apropiada."

  /** The apology naming the reasons, joined by `", "`, between its lead and
      its tail. */
  function Apology(reasons: seq<string>): (m: string)
    ensures m != RetryMessage
    ensures |m| == |ApologyLead| + |Join(reasons, ", ")| + |ApologyTail|
    ensures StartsWith(m, ApologyLead) && m[|m| - |ApologyTail|..] == ApologyTail
    ensures m[|ApologyLead|..|m| - |ApologyTail|] == Join(reasons, ", ")
  {
    var reason := Join(reasons, ", ");
    var m := ApologyLead + reason + ApologyTail;
    assert m[0] == 'L' && RetryMessage[0] == 'E';
    assert m[..|ApologyLead|] == ApologyLead;
    assert m[|ApologyLead|..|m| - |ApologyTail|] == reason;
    assert m[|m| - |ApologyTail|..] == ApologyTail;
    m
  }

  /** The reasons in the order they are reported: the custom blocklists'
      first, then the generic filters'. */
  function Reasons(results: seq<(string, Value)>): (r: Outcome<seq<string>>)
    ensures r.Ok? ==> (&& |r.value| >= |ProcessGenericFilters(results)|
                       && r.value[|r.value| - |ProcessGenericFilters(results)|..] == ProcessGenericFilters(results))
    ensures !Has(results, "custom_blocklists") ==> r == Ok(ProcessGenericFilters(results))
    ensures Has(results, "custom_blocklists") ==>
              var custom := ProcessCustomBlocklists(Get(results, "custom_blocklists").value);
              && (r.Ok? <==> custom.Ok?)
              && (r.Ok? ==> r.value == custom.value + ProcessGenericFilters(results))
  {
    var custom :- if Has(results, "custom_blocklists")
                  then ProcessCustomBlocklists(Get(results, "custom_blocklists").value)
                  else Ok([]);
    var generic := ProcessGenericFilters(results);
    assert (custom + generic)[|custom|..] == generic;
    Ok(custom + generic)
  }

  /** `handle_content_filter_error`: the apology when the filter gave any
      reason, the retry message when it gave none. A missing `innererror`
      or `content_filter_result` reads as `{}`; one that is not a dict
      raises. */
  function HandleContentFilterError(errorObj: Value): (r: Outcome<string>)
    ensures !errorObj.VObj? ==> r.Raised?
    ensures r.Ok? ==> r.value == RetryMessage
                      || (StartsWith(r.value, ApologyLead) && r.value[|r.value| - |ApologyTail|..] == ApologyTail)
  {
    if !errorObj.VObj? then Raised("AttributeError: object has no attribute 'get'")
    else
      var inner := GetOr(errorObj.fields, "innererror", VObj([]));
      if !inner.VObj? then Raised("AttributeError: object has no attribute 'get'")
      else
        var results := GetOr(inner.fields, "content_filter_result", VObj([]));
        if !results.VObj? then Raised("AttributeError: object has no attribute 'items'")
        else
          var reasons :- Reasons(results.fields);
          Ok(if reasons != [] then Apology(reasons) else RetryMessage)
  }

  /** The reply is the retry message exactly when there is no reason, and
      otherwise the apology for the custom reasons followed by the generic
      ones. */
  lemma HandleReply(errorObj: Value)
    requires errorObj.VObj? && GetOr(errorObj.fields, "innererror", VObj([])).VObj?
    requires GetOr(GetOr(errorObj.fields, "innererror", VObj([])).fields, "content_filter_result", VObj([])).VObj?
    ensures var results := GetOr(GetOr(errorObj.fields, "innererror", VObj([])).fields,
                                 "content_filter_result", VObj([])).fields;
            var r := HandleContentFilterError(errorObj);
            && (r.Ok? <==> Reasons(results).Ok?)
            && (r.Ok? ==> (r.value == RetryMessage <==> Reasons(results).value == []))
            && (r.Ok? && Reasons(results).value != [] ==> r.value == Apology(Reasons(results).value))
  {
  }

  /** An error without `innererror`, or whose `innererror` has no
      `content_filter_result`, gets the retry message. */
  lemma NoFilterResultRetry(errorObj: Value)
    requires errorObj.VObj?
    requires !Has(errorObj.fields, "innererror")
             || (Get(errorObj.fields, "innererror").value.VObj?
                 && !Has(Get(errorObj.fields, "innererror").value.fields, "content_filter_result"))
    ensures HandleContentFilterError(errorObj) == Ok(RetryMessage)
  {
  }
}
