/** Python dictionaries: key/value pairs kept in insertion order, each key at
    most once. Assigning to an existing key keeps its position; deleting a key
    closes the gap; a new key goes to the end. */
module Dicts {
  import opened Text

  predicate DistinctKeys<K(==), V>(s: seq<(K, V)>) {
    forall i, j :: 0 <= i < j < |s| ==> s[i].0 != s[j].0
  }

  type Dict<K(==), V> = s: seq<(K, V)> | DistinctKeys(s) witness []

  /** `list(d.keys())`. */
  function Keys<K, V>(d: seq<(K, V)>): (ks: seq<K>)
    ensures |ks| == |d|
    ensures forall i :: 0 <= i < |d| ==> ks[i] == d[i].0
  {
    seq(|d|, i requires 0 <= i < |d| => d[i].0)
  }

  /** `list(d.values())`. */
  function Values<K, V>(d: seq<(K, V)>): (vs: seq<V>)
    ensures |vs| == |d|
    ensures forall i :: 0 <= i < |d| ==> vs[i] == d[i].1
  {
    seq(|d|, i requires 0 <= i < |d| => d[i].1)
  }

  /** The position of key `k`, if present. */
  function Find<K(==), V>(d: seq<(K, V)>, k: K): (r: Option<nat>)
    ensures r.Some? ==> r.value < |d| && d[r.value].0 == k
    ensures r.Some? ==> forall j :: 0 <= j < r.value ==> d[j].0 != k
    ensures r.None? ==> forall j :: 0 <= j < |d| ==> d[j].0 != k
  {
    if |d| == 0 then None
    else if d[0].0 == k then Some(0)
    else match Find(d[1..], k)
      case None => None
      case Some(i) => Some(i + 1)
  }

  /** In a dict, a key's position is the only one holding it. */
  lemma FindAt<K, V>(d: Dict<K, V>, i: nat)
    requires i < |d|
    ensures Find(d, d[i].0) == Some(i)
  {
  }

  /** A list of pairs whose keys are pairwise distinct is a dict. */
  lemma DistinctByKeys<K, V>(s: seq<(K, V)>)
    requires forall i, j :: 0 <= i < j < |s| ==> Keys(s)[i] != Keys(s)[j]
    ensures DistinctKeys(s)
  {
    forall i, j | 0 <= i < j < |s| ensures s[i].0 != s[j].0 {
      assert Keys(s)[i] != Keys(s)[j];
    }
  }

  /** `dict(zip(ks, vs))` for pairwise distinct keys. */
  function Zip<K(==), V>(ks: seq<K>, vs: seq<V>): (d: Dict<K, V>)
    requires |ks| == |vs|
    requires forall i, j :: 0 <= i < j < |ks| ==> ks[i] != ks[j]
    ensures |d| == |ks| && Keys(d) == ks
    ensures forall i :: 0 <= i < |ks| ==> d[i] == (ks[i], vs[i])
  {
    var d := seq(|ks|, i requires 0 <= i < |ks| => (ks[i], vs[i]));
    assert Keys(d) == ks;
    DistinctByKeys(d);
    d
  }

  /** `k in d`. */
  predicate Has<K(==), V>(d: seq<(K, V)>, k: K) {
    Find(d, k).Some?
  }

  /** `d.get(k)`. */
  function Get<K(==), V>(d: seq<(K, V)>, k: K): (r: Option<V>)
    ensures r.Some? <==> Has(d, k)
  {
    match Find(d, k)
    case None => None
    case Some(i) => Some(d[i].1)
  }

  /** `Get` of a dict, read off a position. */
  lemma GetAt<K, V>(d: Dict<K, V>, i: nat)
    requires i < |d|
    ensures Get(d, d[i].0) == Some(d[i].1)
  {
    FindAt(d, i);
  }

  /** Appending a pair with a new key to a dict. */
  lemma AppendNew<K(!new), V>(d: Dict<K, V>, k: K, v: V)
    requires !Has(d, k)
    ensures DistinctKeys(d + [(k, v)])
    ensures Get(d + [(k, v)], k) == Some(v)
    ensures forall k' :: k' != k ==> Get(d + [(k, v)], k') == Get(d, k')
  {
    var r := d + [(k, v)];
    assert DistinctKeys(r);
    GetAt(r, |d|);
    forall k' | k' != k
      ensures Get(r, k') == Get(d, k')
    {
      var f := Find(d, k');
      if f.Some? { GetAt(r, f.value); }
    }
  }

  /** Overwriting the value at the position of an existing key. */
  lemma ReplaceAt<K(!new), V>(d: Dict<K, V>, i: nat, v: V)
    requires i < |d|
    ensures DistinctKeys(d[i := (d[i].0, v)])
    ensures Get(d[i := (d[i].0, v)], d[i].0) == Some(v)
    ensures forall k' :: k' != d[i].0 ==> Get(d[i := (d[i].0, v)], k') == Get(d, k')
  {
    var r := d[i := (d[i].0, v)];
    assert DistinctKeys(r);
    GetAt(r, i);
    forall k' | k' != d[i].0
      ensures Get(r, k') == Get(d, k')
    {
      var f := Find(d, k');
      if f.Some? { GetAt(r, f.value); }
    }
  }

  /** `d[k] = v`: replace in place when present, append otherwise. */
  function Put<K(==, !new), V>(d: Dict<K, V>, k: K, v: V): (r: Dict<K, V>)
    ensures Get(r, k) == Some(v)
    ensures forall k' :: k' != k ==> Get(r, k') == Get(d, k')
    ensures Has(d, k) ==> |r| == |d| && Keys(r) == Keys(d)
    ensures !Has(d, k) ==> r == d + [(k, v)]
  {
    var f := Find(d, k);
    if f.None? then
      AppendNew(d, k, v);
      d + [(k, v)]
    else
      ReplaceAt(d, f.value, v);
      assert Keys(d[f.value := (k, v)]) == Keys(d);
      d[f.value := (k, v)]
  }

  /** Deleting the pair at a position of a dict. */
  lemma DeleteAt<K(!new), V>(d: Dict<K, V>, i: nat)
    requires i < |d|
    ensures DistinctKeys(d[..i] + d[i + 1..])
    ensures Get(d[..i] + d[i + 1..], d[i].0) == None
    ensures forall k' :: k' != d[i].0 ==> Get(d[..i] + d[i + 1..], k') == Get(d, k')
  {
    var r := d[..i] + d[i + 1..];
    assert forall j :: 0 <= j < |r| ==> r[j] == (if j < i then d[j] else d[j + 1]);
    assert DistinctKeys(r);
    forall k' | k' != d[i].0
      ensures Get(r, k') == Get(d, k')
    {
      var f := Find(d, k');
      if f.Some? {
        if f.value < i { GetAt(r, f.value); } else { GetAt(r, f.value - 1); }
      }
    }
  }

  /** Removes the entry at position `i`, keeping the order of the others. */
  function RemoveAt<K(==, !new), V>(d: Dict<K, V>, i: nat): (r: Dict<K, V>)
    requires i < |d|
    ensures |r| == |d| - 1
    ensures Get(r, d[i].0) == None
    ensures forall k' :: k' != d[i].0 ==> Get(r, k') == Get(d, k')
  {
    DeleteAt(d, i);
    d[..i] + d[i + 1..]
  }

  /** `del d[k]` when present; no change otherwise. */
  function Remove<K(==, !new), V>(d: Dict<K, V>, k: K): (r: Dict<K, V>)
    ensures Get(r, k) == None
    ensures forall k' :: k' != k ==> Get(r, k') == Get(d, k')
    ensures !Has(d, k) ==> r == d
  {
    match Find(d, k)
    case None => d
    case Some(i) => RemoveAt(d, i)
  }

  /** Applies `f` to every value, keeping keys and order. */
  function MapValues<K(==, !new), V, W>(d: Dict<K, V>, f: V -> W): (r: Dict<K, W>)
    ensures Keys(r) == Keys(d)
    ensures forall i :: 0 <= i < |d| ==> r[i] == (d[i].0, f(d[i].1))
  {
    var r := seq(|d|, i requires 0 <= i < |d| => (d[i].0, f(d[i].1)));
    assert forall i :: 0 <= i < |r| ==> r[i].0 == d[i].0;
    r
  }
  /** Mapping one more entry of a dict appends its mapped pair, under a key
      the entries before it do not have. */
  lemma MapValuesExtend<K(!new), V, W>(d: Dict<K, V>, f: V -> W, i: nat)
    requires i < |d|
    ensures !Has(MapValues(d[..i], f), d[i].0)
    ensures MapValues(d[..i + 1], f) == MapValues(d[..i], f) + [(d[i].0, f(d[i].1))]
  {
    var before := MapValues(d[..i], f);
    forall j | 0 <= j < i ensures before[j].0 != d[i].0 {
      assert before[j].0 == d[j].0;
    }
    var after := MapValues(d[..i + 1], f);
    assert forall j :: 0 <= j < i + 1 ==> after[j] == (before + [(d[i].0, f(d[i].1))])[j];
  }


  /** The value of the last pair with key `k` in a list of pairs. */
  function LastWith<K(==), V>(s: seq<(K, V)>, k: K): Option<V> {
    if |s| == 0 then None
    else if s[|s| - 1].0 == k then Some(s[|s| - 1].1)
    else LastWith(s[..|s| - 1], k)
  }

  /** `{key: value for key, value in pairs}`: pairs put in order. */
  function FromPairs<K(==, !new), V>(s: seq<(K, V)>): (r: Dict<K, V>)
    ensures |r| <= |s|
  {
    if |s| == 0 then [] else Put(FromPairs(s[..|s| - 1]), s[|s| - 1].0, s[|s| - 1].1)
  }

  /** Every pair of `Put(d, k, v)` is the new pair or a pair of `d`. */
  lemma PutPairs<K(!new), V>(d: Dict<K, V>, k: K, v: V)
    ensures forall p :: p in Put(d, k, v) ==> p == (k, v) || p in d
  {
    var f := Find(d, k);
    if f.Some? {
      var r := d[f.value := (k, v)];
      forall p | p in r ensures p == (k, v) || p in d {
        var j :| 0 <= j < |r| && r[j] == p;
        if j != f.value { assert p == d[j]; }
      }
    }
  }

  /** A property every pair of a list has is had by every pair of the dict
      built from it. */
  lemma {:induction false} FromPairsAll<K(!new), V>(s: seq<(K, V)>, P: ((K, V)) -> bool)
    requires forall p :: p in s ==> P(p)
    ensures forall p :: p in FromPairs(s) ==> P(p)
  {
    if |s| > 0 {
      var init := s[..|s| - 1];
      assert forall p :: p in init ==> p in s;
      FromPairsAll(init, P);
      PutPairs(FromPairs(init), s[|s| - 1].0, s[|s| - 1].1);
    }
  }

  /** Building a dict from pairs keeps, for each key, the value of its last pair. */
  lemma {:induction false} FromPairsLastWins<K(!new), V>(s: seq<(K, V)>, k: K)
    ensures Get(FromPairs(s), k) == LastWith(s, k)
  {
    if |s| > 0 {
      FromPairsLastWins(s[..|s| - 1], k);
    }
  }
}
