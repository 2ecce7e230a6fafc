/** JSON-like values as Python holds them after `json.loads` (and as request
    bodies arrive), with the truthiness, `str()` and pydantic field coercions
    the rest of the model relies on. */
module Values {
  import opened Text
  import opened Dicts

  /** A Python float, kept as the text `repr` gives it; no arithmetic is done on it. */
  datatype Float = Float(repr: string)

  datatype Value =
    | VNull
    | VBool(b: bool)
    | VInt(i: int)
    | VFloat(f: Float)
    | VStr(s: string)
    | VList(items: seq<Value>)
    | VObj(fields: seq<(string, Value)>)

  /** A JSON object as a Python dict: its keys in insertion order. */
  type Fields = Dict<string, Value>

  /** Python's `bool(v)`. */
  predicate Truthy(v: Value) {
    match v
    case VNull => false
    case VBool(b) => b
    case VInt(i) => i != 0
    case VFloat(f) => f.repr != "0.0" && f.repr != "-0.0"
    case VStr(s) => s != []
    case VList(items) => items != []
    case VObj(fields) => fields != []
  }

  /** What a `for` loop visits in a JSON value: list items, dict keys, or
      the characters of a string; anything else is not iterable. */
  function Iterate(v: Value): (r: Outcome<seq<Value>>)
    ensures v.VList? ==> r == Ok(v.items)
    ensures r.Raised? <==> !(v.VList? || v.VObj? || v.VStr?)
  {
    match v
    case VList(items) => Ok(items)
    case VObj(fs) => Ok(seq(|fs|, i requires 0 <= i < |fs| => VStr(fs[i].0)))
    case VStr(s) => Ok(seq(|s|, i requires 0 <= i < |s| => VStr([s[i]])))
    case _ => Raised("TypeError: object is not iterable")
  }

  /** `d.get(k, default)`. */
  function GetOr(d: seq<(string, Value)>, k: string, default: Value): (v: Value)
    ensures Has(d, k) ==> Some(v) == Get(d, k)
    ensures !Has(d, k) ==> v == default
  {
    if Has(d, k) then Get(d, k).value else default
  }

  /** A filter entry that flags content: a dict whose `filtered` is `True`. */
  predicate Flags(v: Value) {
    v.VObj? && Get(v.fields, "filtered") == Some(VBool(true))
  }

  /** `d.get(k)` on a value that is a dict; None for any other value. */
  function Field(v: Value, k: string): (r: Option<Value>)
    ensures r.Some? ==> v.VObj?
  {
    if v.VObj? then Get(v.fields, k) else None
  }

  /** Python's `str(v)` for the scalars an f-string meets; lists and objects,
      whose `repr` is not modelled, print as a fixed placeholder. */
  function Str(v: Value): string {
    match v
    case VNull => "None"
    case VBool(b) => BoolToString(b)
    case VInt(i) => IntToString(i)
    case VFloat(f) => f.repr
    case VStr(s) => s
    case VList(_) => "[...]"
    case VObj(_) => "{...}"
  }

  /** The float pydantic makes of an integer given for a `float` field. */
  function IntToFloat(i: int): (f: Float)
    ensures StartsWith(f.repr, IntToString(i))
  {
    Float(IntToString(i) + ".0")
  }

  // Pydantic's validation of one field of a model. `None` means the
  // validation fails; a missing key takes the field's default, and a field
  // without a default (`dflt == None`) is then missing.

  /** A `str` field. */
  function StrField(d: Fields, k: string, dflt: Option<string>): (r: Option<string>)
    ensures r.None? || (!Has(d, k) && r == dflt) || Get(d, k) == Some(VStr(r.value))
  {
    match Get(d, k)
    case None => dflt
    case Some(v) => if v.VStr? then Some(v.s) else None
  }

  /** An `Optional[str]` field: `null` is None. */
  function OptStrField(d: Fields, k: string, dflt: Option<string>): (r: Option<Option<string>>)
    ensures Get(d, k) == Some(VNull) ==> r == Some(None)
    ensures Get(d, k).None? ==> r == Some(dflt)
    ensures r == Some(None) && Has(d, k) ==> Get(d, k) == Some(VNull)
    ensures r.Some? && r.value.Some? && Has(d, k) ==> Get(d, k) == Some(VStr(r.value.value))
  {
    match Get(d, k)
    case None => Some(dflt)
    case Some(v) =>
      if v.VNull? then Some(None) else if v.VStr? then Some(Some(v.s)) else None
  }

  /** An `Optional[int]` field. */
  function OptIntField(d: Fields, k: string, dflt: Option<int>): (r: Option<Option<int>>)
    ensures Get(d, k) == Some(VNull) ==> r == Some(None)
    ensures Get(d, k).None? ==> r == Some(dflt)
  {
    match Get(d, k)
    case None => Some(dflt)
    case Some(v) =>
      if v.VNull? then Some(None) else if v.VInt? then Some(Some(v.i)) else None
  }

  /** An `Optional[bool]` field. */
  function OptBoolField(d: Fields, k: string, dflt: Option<bool>): (r: Option<Option<bool>>)
    ensures Get(d, k) == Some(VNull) ==> r == Some(None)
    ensures Get(d, k).None? ==> r == Some(dflt)
  {
    match Get(d, k)
    case None => Some(dflt)
    case Some(v) =>
      if v.VNull? then Some(None) else if v.VBool? then Some(Some(v.b)) else None
  }

  /** A required `float` field: an integer is widened. */
  function FloatField(d: Fields, k: string): (r: Option<Float>)
    ensures r.Some? ==> Has(d, k)
  {
    match Get(d, k)
    case None => None
    case Some(v) =>
      if v.VFloat? then Some(v.f) else if v.VInt? then Some(IntToFloat(v.i)) else None
  }

  /** A `bool` field with a default. */
  function BoolField(d: Fields, k: string, dflt: bool): (r: Option<bool>)
    ensures Get(d, k).None? ==> r == Some(dflt)
  {
    match Get(d, k)
    case None => Some(dflt)
    case Some(v) => if v.VBool? then Some(v.b) else None
  }

  function OptStrValue(o: Option<string>): (v: Value)
    ensures OptStrField([("k", v)], "k", None) == Some(o)
  {
    match o
    case None => VNull
    case Some(s) => VStr(s)
  }

  function OptIntValue(o: Option<int>): (v: Value)
    ensures OptIntField([("k", v)], "k", None) == Some(o)
  {
    match o
    case None => VNull
    case Some(i) => VInt(i)
  }

  function OptBoolValue(o: Option<bool>): (v: Value)
    ensures OptBoolField([("k", v)], "k", None) == Some(o)
  {
    match o
    case None => VNull
    case Some(b) => VBool(b)
  }
}
