/** What the two bulk sync services share: checking each record of a batch
    for its required fields, the error list they raise with, and the user
    whose memory the batch goes to. */
module Batches {
  import opened Text
  import opened Dicts
  import opened Values

  /** `m` is `s` with some elements dropped, the rest kept in order. */
  predicate SubsequenceOf<T(==)>(m: seq<T>, s: seq<T>)
    decreases |s|
  {
    if m == [] then true
    else if s == [] then false
    else if m[0] == s[0] then SubsequenceOf(m[1..], s[1..])
    else SubsequenceOf(m, s[1..])
  }

  /** `_validate_data` of both sync services:
      `[field for field in required if field not in record]`. */
  function Missing(required: seq<string>, rec: Fields): (m: seq<string>)
    ensures forall x {:trigger x in m} :: x in m <==> x in required && !Has(rec, x)
    ensures SubsequenceOf(m, required)
    ensures m == [] <==> Complete(required, rec)
  {
    if required == [] then []
    else if !Has(rec, required[0]) then [required[0]] + Missing(required[1..], rec)
    else
      var m := Missing(required[1..], rec);
      assert m != [] ==> m[0] in m && m[0] != required[0];
      m
  }

  /** A record that has every required field. */
  predicate Complete(required: seq<string>, rec: Fields) {
    forall x {:trigger Has(rec, x)} :: x in required ==> Has(rec, x)
  }

  /** The values of the named fields of a record that has them all, in order. */
  function Lookup(rec: Fields, names: seq<string>): (vs: seq<Value>)
    requires Complete(names, rec)
    ensures |vs| == |names|
    ensures forall i :: 0 <= i < |names| ==> Get(rec, names[i]) == Some(vs[i])
  {
    if names == [] then []
    else
      assert Has(rec, names[0]);
      [Get(rec, names[0]).value] + Lookup(rec, names[1..])
  }

  /** A complete record has each required field. */
  lemma CompleteHas(required: seq<string>, rec: Fields, k: string)
    requires Complete(required, rec) && k in required
    ensures Has(rec, k)
  {
  }

  /** How a bulk sync ends: the validation error with every bad record, the
      `TypeError` of a record id that cannot be a dict key, a record the model rejects (pydantic's `ValidationError`, raised before the
      save), None when the user's stored map is empty, or the ids written. */
  datatype SyncOutcome =
    | Rejected(errors: seq<BatchError>)
    | Unhashable
    | ModelError
    | NotStored
    | Stored(ids: seq<string>)

  /** Runs `step` over `xs` in order, stopping at the first failure: a loop
      whose body may raise. */
  function Steps<S, X>(s: S, xs: seq<X>, step: (S, X) -> Option<S>): Option<S> {
    if xs == [] then Some(s)
    else
      var s1 :- Steps(s, xs[..|xs| - 1], step);
      step(s1, xs[|xs| - 1])
  }

  /** When whether a step fails depends only on the item, a run succeeds
      exactly when every item passes. */
  lemma {:induction false} StepsSomeIff<S, X>(s: S, xs: seq<X>, step: (S, X) -> Option<S>, ok: X -> bool)
    requires forall t, x :: step(t, x).Some? <==> ok(x)
    ensures Steps(s, xs, step).Some? <==> forall i :: 0 <= i < |xs| ==> ok(xs[i])
  {
    if xs != [] {
      var n := |xs| - 1;
      StepsSomeIff(s, xs[..n], step, ok);
      assert forall i :: 0 <= i < n ==> xs[..n][i] == xs[i];
    }
  }

  /** Once a step fails, so does every longer run. */
  lemma {:induction false} StepsNoneSticky<S, X>(s: S, xs: seq<X>, step: (S, X) -> Option<S>, i: nat)
    requires i <= |xs| && Steps(s, xs[..i], step).None?
    ensures Steps(s, xs, step).None?
  {
    if i < |xs| {
      var n := |xs| - 1;
      assert xs[..n][..i] == xs[..i];
      StepsNoneSticky(s, xs[..n], step, i);
    } else {
      assert xs[..i] == xs;
    }
  }

  /** A successful run is a successful run of all but the last element,
      then a successful last step. */
  lemma StepsSnoc<S, X>(s: S, xs: seq<X>, step: (S, X) -> Option<S>, x: X)
    ensures Steps(s, xs + [x], step)
            == (match Steps(s, xs, step) case None => None case Some(s1) => step(s1, x))
  {
    assert (xs + [x])[..|xs|] == xs;
  }

  /** One more element of a run whose prefix succeeded is one more step. */
  lemma StepsNext<S, X>(s: S, xs: seq<X>, step: (S, X) -> Option<S>, i: nat, s1: S)
    requires i < |xs| && Steps(s, xs[..i], step) == Some(s1)
    ensures Steps(s, xs[..i + 1], step) == step(s1, xs[i])
  {
    assert xs[..i + 1] == xs[..i] + [xs[i]];
    StepsSnoc(s, xs[..i], step, xs[i]);
  }

  /** `{"index": idx, "missing_fields": missing}`. */
  datatype BatchError = BatchError(index: nat, missingFields: seq<string>)

  /** The errors the validation loop collects: one per incomplete record. */
  function ErrorsOf(required: seq<string>, data: seq<Fields>): (es: seq<BatchError>)
    ensures es == [] <==> forall i :: 0 <= i < |data| ==> Complete(required, data[i])
  {
    if data == [] then []
    else
      var n := |data| - 1;
      var es := ErrorsOf(required, data[..n]);
      if Complete(required, data[n]) then es else es + [BatchError(n, Missing(required, data[n]))]
  }

  /** Each error names an incomplete record by its position, with its missing
      fields, and the errors follow input order. */
  lemma {:induction false} ErrorsSound(required: seq<string>, data: seq<Fields>)
    ensures forall k :: 0 <= k < |ErrorsOf(required, data)| ==>
              var e := ErrorsOf(required, data)[k];
              e.index < |data| && !Complete(required, data[e.index])
              && e.missingFields == Missing(required, data[e.index])
    ensures forall a, b :: 0 <= a < b < |ErrorsOf(required, data)| ==>
              ErrorsOf(required, data)[a].index < ErrorsOf(required, data)[b].index
  {
    if data != [] {
      var n := |data| - 1;
      ErrorsSound(required, data[..n]);
      var es := ErrorsOf(required, data[..n]);
      forall k | 0 <= k < |es|
        ensures es[k].index < n && data[..n][es[k].index] == data[es[k].index]
      {
        assert es[k].index < |data[..n]|;
      }
    }
  }

  /** Every incomplete record is reported, with its own missing fields. */
  lemma {:induction false} ErrorsCoverIncomplete(required: seq<string>, data: seq<Fields>, i: nat)
    requires i < |data| && !Complete(required, data[i])
    ensures BatchError(i, Missing(required, data[i])) in ErrorsOf(required, data)
  {
    var n := |data| - 1;
    var es := ErrorsOf(required, data[..n]);
    var e := BatchError(i, Missing(required, data[i]));
    if i < n {
      assert data[..n][i] == data[i];
      ErrorsCoverIncomplete(required, data[..n], i);
      assert e in es;
      var all := ErrorsOf(required, data);
      assert all == es || all == es + [BatchError(n, Missing(required, data[n]))];
    }
  }

  /** `user_phone_number`: the `userPhoneNumber` of the last complete record,
      as the f-strings that build the store keys print it; "" when there is none. */
  function LastUserPhone(required: seq<string>, data: seq<Fields>): (u: string)
    requires "userPhoneNumber" in required
    ensures (forall i :: 0 <= i < |data| ==> !Complete(required, data[i])) ==> u == ""
  {
    if data == [] then ""
    else
      var n := |data| - 1;
      if Complete(required, data[n]) then Str(Get(data[n], "userPhoneNumber").value)
      else LastUserPhone(required, data[..n])
  }

  /** The user is the one named by the last complete record. */
  lemma {:induction false} LastUserPhoneIsLast(required: seq<string>, data: seq<Fields>, i: nat)
    requires "userPhoneNumber" in required
    requires i < |data| && Complete(required, data[i])
    requires forall j :: i < j < |data| ==> !Complete(required, data[j])
    ensures LastUserPhone(required, data) == Str(Get(data[i], "userPhoneNumber").value)
  {
    if i < |data| - 1 {
      LastUserPhoneIsLast(required, data[..|data| - 1], i);
    }
  }
}
