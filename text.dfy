/** Python string helpers shared by the whole model: `str.strip`, `startswith`,
    `split`/`join`, `replace`, `lower`, and `str()` of an integer, together with
    the Option and Outcome wrappers used for missing values and raised
    exceptions. */
module Text {

  datatype Option<+T> = None | Some(value: T) {
    predicate IsFailure() { None? }
    function PropagateFailure<U>(): Option<U>
      requires None?
    {
      None
    }
    function Extract(): T
      requires Some?
    {
      value
    }
  }

  /** The result of a call that may raise: its value, or the text of the exception. */
  datatype Outcome<+T> = Ok(value: T) | Raised(error: string) {
    predicate IsFailure() { Raised? }
    function PropagateFailure<U>(): Outcome<U>
      requires Raised?
    {
      Raised(error)
    }
    function Extract(): T
      requires Ok?
    {
      value
    }
  }

  /** The values `f` gives the items, in order, skipping the items it
      gives None for: a list comprehension with a filter. */
  function FilterMap<X>(xs: seq<X>, f: X -> Option<string>): (r: seq<string>)
    ensures |r| <= |xs|
  {
    if xs == [] then []
    else
      var n := |xs| - 1;
      var found := f(xs[n]);
      FilterMap(xs[..n], f) + (if found.Some? then [found.value] else [])
  }

  /** A value is kept exactly when some item gives it. */
  lemma {:induction false} FilterMapMembers<X>(xs: seq<X>, f: X -> Option<string>)
    ensures forall v :: v in FilterMap(xs, f) <==> exists i :: 0 <= i < |xs| && f(xs[i]) == Some(v)
  {
    if xs != [] {
      var n := |xs| - 1;
      var init := xs[..n];
      FilterMapMembers(init, f);
      forall v | exists i :: 0 <= i < |xs| && f(xs[i]) == Some(v)
        ensures v in FilterMap(xs, f)
      {
        var i :| 0 <= i < |xs| && f(xs[i]) == Some(v);
        if i < n {
          assert f(init[i]) == Some(v);
        }
      }
      forall v | v in FilterMap(xs, f)
        ensures exists i :: 0 <= i < |xs| && f(xs[i]) == Some(v)
      {
        if v in FilterMap(init, f) {
          var i :| 0 <= i < n && f(init[i]) == Some(v);
          assert xs[i] == init[i];
        }
      }
    }
  }

  /** Python's `str.isspace()` on a single character. */
  predicate IsSpace(c: char) {
    var n := c as int;
    (9 <= n <= 13) || (28 <= n <= 32) || n == 0x85 || n == 0xA0 || n == 0x1680
    || (0x2000 <= n <= 0x200A) || n == 0x2028 || n == 0x2029 || n == 0x202F
    || n == 0x205F || n == 0x3000
  }

  predicate IsSlash(c: char) { c == '/' }

  /** Number of leading characters of `s` that `drop` removes. */
  function CountLeading(s: string, drop: char -> bool): (k: nat)
    ensures k <= |s|
    ensures forall i :: 0 <= i < k ==> drop(s[i])
    ensures k < |s| ==> !drop(s[k])
  {
    if |s| == 0 || !drop(s[0]) then 0 else 1 + CountLeading(s[1..], drop)
  }

  /** Number of trailing characters of `s` that `drop` removes. */
  function CountTrailing(s: string, drop: char -> bool): (k: nat)
    ensures k <= |s|
    ensures forall i :: |s| - k <= i < |s| ==> drop(s[i])
    ensures k < |s| ==> !drop(s[|s| - 1 - k])
  {
    if |s| == 0 || !drop(s[|s| - 1]) then 0 else 1 + CountTrailing(s[..|s| - 1], drop)
  }

  /** Python's `s.lstrip(chars)`, the characters given as a predicate. */
  function LStrip(s: string, drop: char -> bool): (r: string)
    ensures |r| <= |s| && r == s[|s| - |r|..]
    ensures r == [] || !drop(r[0])
    ensures forall i :: 0 <= i < |s| - |r| ==> drop(s[i])
  {
    s[CountLeading(s, drop)..]
  }

  /** Python's `s.rstrip(chars)`, the characters given as a predicate. */
  function RStrip(s: string, drop: char -> bool): (r: string)
    ensures |r| <= |s| && r == s[..|r|]
    ensures r == [] || !drop(r[|r| - 1])
    ensures forall i :: |r| <= i < |s| ==> drop(s[i])
  {
    s[..|s| - CountTrailing(s, drop)]
  }

  /** A string with no whitespace at either end. */
  predicate IsStripped(s: string) {
    s == [] || (!IsSpace(s[0]) && !IsSpace(s[|s| - 1]))
  }

  /** Python's `s.strip()`. */
  function Strip(s: string): (r: string)
    ensures IsStripped(r)
    ensures |r| <= |s|
  {
    RStrip(LStrip(s, IsSpace), IsSpace)
  }

  lemma {:induction false} CountLeadingNone(s: string, drop: char -> bool)
    requires s == [] || !drop(s[0])
    ensures CountLeading(s, drop) == 0
  {
  }

  lemma {:induction false} CountTrailingNone(s: string, drop: char -> bool)
    requires s == [] || !drop(s[|s| - 1])
    ensures CountTrailing(s, drop) == 0
  {
  }

  /** Stripping a string that is already stripped changes nothing. */
  lemma StrippedFixpoint(s: string)
    requires IsStripped(s)
    ensures Strip(s) == s
  {
    CountLeadingNone(s, IsSpace);
    assert LStrip(s, IsSpace) == s;
    CountTrailingNone(s, IsSpace);
  }

  /** `strip()` is idempotent. */
  lemma StripIdempotent(s: string)
    ensures Strip(Strip(s)) == Strip(s)
  {
    StrippedFixpoint(Strip(s));
  }

  /** One space in front of a stripped string is stripped away again. */
  lemma StripLeadingSpace(y: string)
    requires IsStripped(y)
    ensures Strip(" " + y) == y
  {
    var s := " " + y;
    assert s[1..] == y;
    CountLeadingNone(y, IsSpace);
    assert CountLeading(s, IsSpace) == 1;
    assert LStrip(s, IsSpace) == y;
    StrippedFixpoint(y);
  }

  /** One space behind a stripped string is stripped away again. */
  lemma StripTrailingSpace(x: string)
    requires IsStripped(x)
    ensures Strip(x + " ") == x
  {
    var s := x + " ";
    if x == [] {
      assert s == " " + x;
      StripLeadingSpace(x);
    } else {
      CountLeadingNone(s, IsSpace);
      assert LStrip(s, IsSpace) == s;
      assert s[..|s| - 1] == x;
      CountTrailingNone(x, IsSpace);
      assert CountTrailing(s, IsSpace) == 1;
    }
  }

  /** Joining two non-empty stripped strings with one space gives a stripped string. */
  lemma StripJoinedPair(x: string, y: string)
    requires IsStripped(x) && IsStripped(y) && x != [] && y != []
    ensures Strip(x + " " + y) == x + " " + y
  {
    StrippedFixpoint(x + " " + y);
  }

  predicate StartsWith(s: string, prefix: string) {
    |prefix| <= |s| && s[..|prefix|] == prefix
  }

  /** Python's `sep.join(parts)`. */
  function Join(parts: seq<string>, sep: string): (r: string)
    ensures parts == [] ==> r == []
    ensures |parts| == 1 ==> r == parts[0]
  {
    if |parts| == 0 then []
    else if |parts| == 1 then parts[0]
    else parts[0] + sep + Join(parts[1..], sep)
  }

  /** `p` occurs in `s` at offset `j`. */
  predicate OccursAt(s: string, p: string, j: int) {
    0 <= j && j + |p| <= |s| && s[j..j + |p|] == p
  }

  /** The first offset at or after `from` where `p` occurs in `s`. */
  function IndexFrom(s: string, p: string, from: nat): (r: Option<nat>)
    decreases |s| - from
    ensures r.Some? ==> from <= r.value && OccursAt(s, p, r.value)
    ensures r.Some? ==> forall j :: from <= j < r.value ==> !OccursAt(s, p, j)
    ensures r.None? ==> forall j :: from <= j ==> !OccursAt(s, p, j)
  {
    if from + |p| > |s| then None
    else if s[from..from + |p|] == p then Some(from)
    else IndexFrom(s, p, from + 1)
  }

  /** Python's `s.find(p)`, with None for -1. */
  function IndexOf(s: string, p: string): (r: Option<nat>)
    ensures r.Some? ==> OccursAt(s, p, r.value)
    ensures r.Some? ==> forall j :: 0 <= j < r.value ==> !OccursAt(s, p, j)
    ensures r.None? ==> forall j :: !OccursAt(s, p, j)
  {
    IndexFrom(s, p, 0)
  }

  predicate Contains(s: string, p: string) {
    exists j | 0 <= j <= |s| :: OccursAt(s, p, j)
  }

  /** Python's `s.split(p)` for a non-empty separator. */
  function Split(s: string, p: string): (r: seq<string>)
    requires |p| > 0
    decreases |s|
    ensures |r| >= 1
  {
    match IndexOf(s, p)
    case None => [s]
    case Some(i) => [s[..i]] + Split(s[i + |p|..], p)
  }

  /** Splitting from the first occurrence on: the text before it, then the
      pieces of the rest. */
  lemma SplitAt(s: string, p: string, i: nat)
    requires |p| > 0 && IndexOf(s, p) == Some(i)
    ensures i + |p| <= |s|
    ensures Split(s, p) == [s[..i]] + Split(s[i + |p|..], p)
  {
    assert OccursAt(s, p, i);
  }

  /** Python's `s.replace(p, q)` for a non-empty pattern: every occurrence, left to right. */
  function ReplaceAll(s: string, p: string, q: string): (r: string)
    requires |p| > 0
    decreases |s|
  {
    match IndexOf(s, p)
    case None => s
    case Some(i) => s[..i] + q + ReplaceAll(s[i + |p|..], p, q)
  }

  /** Replacing from the first occurrence on: the text before it, the
      replacement, then the rest replaced. */
  lemma ReplaceAllAt(s: string, p: string, q: string, i: nat)
    requires |p| > 0 && IndexOf(s, p) == Some(i)
    ensures i + |p| <= |s|
    ensures ReplaceAll(s, p, q) == s[..i] + q + ReplaceAll(s[i + |p|..], p, q)
  {
    assert OccursAt(s, p, i);
  }

  /** An occurrence with none before it is the first one. */
  lemma IndexOfFirst(s: string, p: string, i: nat)
    requires OccursAt(s, p, i) && forall j :: 0 <= j < i ==> !OccursAt(s, p, j)
    ensures IndexOf(s, p) == Some(i)
  {
  }

  /** A text without the pattern's one character is left as it is. */
  lemma ReplaceAllAbsent(s: string, c: char, q: string)
    requires c !in s
    ensures ReplaceAll(s, [c], q) == s
  {
    forall j | 0 <= j ensures !OccursAt(s, [c], j) {
      if j + 1 <= |s| {
        assert s[j..j + 1][0] == s[j];
      }
    }
  }

  lemma JoinCons(x: string, rest: seq<string>, sep: string)
    requires |rest| >= 1
    ensures Join([x] + rest, sep) == x + sep + Join(rest, sep)
  {
    assert ([x] + rest)[1..] == rest;
  }

  /** Joining one more part appends the separator and the part. */
  lemma {:induction false} JoinSnoc(parts: seq<string>, x: string, sep: string)
    requires |parts| >= 1
    ensures Join(parts + [x], sep) == Join(parts, sep) + sep + x
  {
    if |parts| == 1 {
      assert parts + [x] == [parts[0], x];
      assert Join([x], sep) == x;
    } else {
      assert (parts + [x])[1..] == parts[1..] + [x];
      JoinSnoc(parts[1..], x, sep);
    }
  }

  /** Joining non-empty parts gives the empty string only for no parts. */
  lemma {:induction false} JoinEmpty(parts: seq<string>, sep: string)
    requires forall i :: 0 <= i < |parts| ==> parts[i] != []
    ensures Join(parts, sep) == [] <==> parts == []
  {
    if |parts| > 1 {
      assert |Join(parts, sep)| >= |parts[0]|;
    }
  }

  /** The joined text starts with the first part and ends with the last. */
  lemma {:induction false} JoinEnds(parts: seq<string>, sep: string)
    requires |parts| >= 1 && forall i :: 0 <= i < |parts| ==> parts[i] != []
    ensures var j := Join(parts, sep);
            j != [] && j[0] == parts[0][0] && j[|j| - 1] == parts[|parts| - 1][|parts[|parts| - 1]| - 1]
  {
    if |parts| > 1 {
      JoinEnds(parts[1..], sep);
    }
  }

  /** The joined text begins with the first part. */
  lemma JoinStartsWithFirst(parts: seq<string>, sep: string)
    requires |parts| >= 1
    ensures StartsWith(Join(parts, sep), parts[0])
  {
    var j := Join(parts, sep);
    if |parts| > 1 {
      assert j == parts[0] + sep + Join(parts[1..], sep);
      assert j[..|parts[0]|] == parts[0];
    } else {
      assert j[..|parts[0]|] == parts[0];
    }
  }

  /** Joining non-empty stripped parts gives a stripped text. */
  lemma JoinStripped(parts: seq<string>, sep: string)
    requires forall i :: 0 <= i < |parts| ==> parts[i] != [] && IsStripped(parts[i])
    ensures IsStripped(Join(parts, sep))
  {
    if |parts| >= 1 {
      JoinEnds(parts, sep);
    }
  }

  /** Splitting on `p` and joining with `p` gives back the string. */
  lemma {:induction false} JoinSplit(s: string, p: string)
    requires |p| > 0
    ensures Join(Split(s, p), p) == s
    decreases |s|
  {
    match IndexOf(s, p)
    case None =>
    case Some(i) =>
      var rest := s[i + |p|..];
      SplitAt(s, p, i);
      JoinSplit(rest, p);
      JoinCons(s[..i], Split(rest, p), p);
      calc {
        Join(Split(s, p), p);
        s[..i] + p + Join(Split(rest, p), p);
        s[..i] + p + rest;
        { assert s[i..i + |p|] == p; }
        s;
      }
  }

  /** No piece produced by `split(p)` contains `p`. */
  lemma {:induction false} SplitPiecesFree(s: string, p: string)
    requires |p| > 0
    ensures forall k :: 0 <= k < |Split(s, p)| ==> !Contains(Split(s, p)[k], p)
    decreases |s|
  {
    match IndexOf(s, p)
    case None =>
    case Some(i) =>
      var rest := s[i + |p|..];
      SplitPiecesFree(rest, p);
      forall j | OccursAt(s[..i], p, j)
        ensures false
      {
        assert s[..i][j..j + |p|] == s[j..j + |p|];
        assert OccursAt(s, p, j);
      }
      var r := Split(s, p);
      assert r == [s[..i]] + Split(rest, p);
      forall k | 0 <= k < |r|
        ensures !Contains(r[k], p)
      {
        if k > 0 {
          assert r[k] == Split(rest, p)[k - 1];
        }
      }
  }

  /** `s.replace(p, q)` is `q.join(s.split(p))`. */
  lemma {:induction false} ReplaceIsSplitJoin(s: string, p: string, q: string)
    requires |p| > 0
    ensures ReplaceAll(s, p, q) == Join(Split(s, p), q)
    decreases |s|
  {
    match IndexOf(s, p)
    case None =>
    case Some(i) =>
      var rest := s[i + |p|..];
      ReplaceAllAt(s, p, q, i);
      SplitAt(s, p, i);
      ReplaceIsSplitJoin(rest, p, q);
      JoinCons(s[..i], Split(rest, p), q);
  }

  /** Python's `str.lower()` on the Basic Latin and Latin-1 letters. */
  function LowerChar(c: char): (r: char)
    ensures ('A' <= c <= 'Z') ==> r as int == c as int + 32
    ensures !('A' <= c <= 'Z') && !(0xC0 <= c as int <= 0xDE && c as int != 0xD7) ==> r == c
  {
    if 'A' <= c <= 'Z' || (0xC0 <= c as int <= 0xDE && c as int != 0xD7)
    then (c as int + 32) as char
    else c
  }

  function Lower(s: string): (r: string)
    ensures |r| == |s|
    ensures forall i :: 0 <= i < |s| ==> r[i] == LowerChar(s[i])
  {
    seq(|s|, i requires 0 <= i < |s| => LowerChar(s[i]))
  }

  function DigitChar(d: nat): char
    requires d < 10
  {
    ('0' as int + d) as char
  }

  /** Python's `str()` of a non-negative integer. */
  function NatToString(n: nat): (r: string)
    ensures |r| >= 1
    ensures forall i :: 0 <= i < |r| ==> '0' <= r[i] <= '9'
  {
    if n < 10 then [DigitChar(n)] else NatToString(n / 10) + [DigitChar(n % 10)]
  }

  /** Python's `str()` of an integer. */
  function IntToString(i: int): (r: string)
    ensures |r| >= 1
  {
    if i < 0 then "-" + NatToString(-i) else NatToString(i)
  }

  /** Python's `str()` of a boolean. */
  function BoolToString(b: bool): string {
    if b then "True" else "False"
  }

  /** An f-string field holding an optional string: `None` prints as "None". */
  function OptToString(o: Option<string>): string {
    match o
    case None => "None"
    case Some(s) => s
  }
}
