/** JSON values as the report generator builds them and as Python's `json`
    module and its dict, list and str operations treat them. */
module Json {

  datatype Option<+T> = None | Some(value: T)

  /** A JSON value. A `Doc` is a string whose text is a serialised
      sub-document (what `json.dumps` wrote), kept as what `json.loads` makes
      of that text; a `Str` is ordinary text (a name, a display string, a
      literal token) that the model never parses. The model takes a `Doc` to
      be non-empty text and never equal to a `Str`: two texts are compared
      by what they hold, not character by character. Numbers are integers: every number
      the generator writes is one. A dict is a map: Python compares dicts
      without regard to key order. */
  datatype Value =
    | Null
    | Bool(b: bool)
    | Num(n: int)
    | Str(s: string)
    | Doc(blob: Blob)
    | Arr(items: seq<Value>)
    | Obj(fields: map<string, Value>)

  /** What `json.loads` makes of an embedded text. */
  datatype Blob = Parsed(value: Value) | Unparseable

  /** The outcome of `json.loads(v)`: a `TypeError` when `v` is not a string,
      a `JSONDecodeError` when the text is not JSON, or the decoded value. */
  datatype LoadResult = NotText | Rejected | Loaded(value: Value)

  predicate IsText(v: Value)
  {
    v.Str? || v.Doc?
  }

  function Loads(v: Value): (r: LoadResult)
    ensures r.NotText? <==> !IsText(v)
    ensures r.Loaded? ==> v == Doc(Parsed(r.value))
  {
    match v
    case Doc(Parsed(x)) => Loaded(x)
    case Doc(Unparseable) => Rejected
    case Str(_) => Rejected
    case _ => NotText
  }

  /** `json.dumps(v, ensure_ascii=False)` stored as a string value; it is
      read back by `json.loads` as `v` itself. */
  function Dumps(v: Value): (r: Value)
    ensures Loads(r) == Loaded(v)
  {
    Doc(Parsed(v))
  }

  /** `key in d` for a dict `d`. */
  predicate HasKey(v: Value, key: string)
  {
    v.Obj? && key in v.fields
  }

  /** `d[key]`, or `None` where Python raises (a missing key, or indexing
      something that is not a dict by a string). */
  function Get(v: Value, key: string): (r: Option<Value>)
    ensures r.Some? <==> HasKey(v, key)
    ensures HasKey(v, key) ==> r == Some(v.fields[key])
  {
    if v.Obj? && key in v.fields then Some(v.fields[key]) else None
  }

  /** Every key of a dict reads back as the value stored under it, and no other key is found. */
  lemma DictReads(m: map<string, Value>)
    ensures forall key :: Get(Obj(m), key) == if key in m then Some(m[key]) else None
  {
  }

  /** `d.get(key, default)` on a dict. */
  function GetOr(v: Value, key: string, default: Value): (r: Value)
    requires v.Obj?
    ensures key !in v.fields ==> r == default
    ensures key in v.fields ==> r == v.fields[key]
  {
    if key in v.fields then v.fields[key] else default
  }

  /** `o[key]` on a value that may be missing: `None` unless `o` is a dict holding `key`. */
  function Field(o: Option<Value>, key: string): (r: Option<Value>)
    ensures r.Some? <==> o.Some? && HasKey(o.value, key)
    ensures o.Some? && HasKey(o.value, key) ==> r == Some(o.value.fields[key])
  {
    if o.Some? && o.value.Obj? && key in o.value.fields then Some(o.value.fields[key]) else None
  }

  /** `o[i]` on a value that may be missing: `None` unless `o` is a list longer than `i`. */
  function Item(o: Option<Value>, i: nat): (r: Option<Value>)
    ensures r.Some? <==> o.Some? && o.value.Arr? && i < |o.value.items|
    ensures o.Some? && o.value.Arr? && i < |o.value.items| ==> r == Some(o.value.items[i])
  {
    if o.Some? && o.value.Arr? && i < |o.value.items| then Some(o.value.items[i]) else None
  }

  /** Python truthiness: `None`, `False`, `0`, `""`, `[]` and `{}` are false. */
  predicate Truthy(v: Value)
  {
    match v
    case Null => false
    case Bool(b) => b
    case Num(n) => n != 0
    case Str(s) => |s| > 0
    case Doc(_) => true
    case Arr(xs) => |xs| > 0
    case Obj(fs) => |fs| > 0
  }

  /** `v == k` for an integer `k`; in Python `False == 0` and `True == 1`. */
  predicate EqualsInt(v: Value, k: int)
  {
    match v
    case Num(n) => n == k
    case Bool(b) => (if b then 1 else 0) == k
    case _ => false
  }

  /** Values that may be put in a Python set (lists and dicts may not). */
  predicate Hashable(v: Value)
  {
    !v.Arr? && !v.Obj?
  }

  /** The set element a hashable value stands for: `True` and `1` (and
      `False` and `0`) are one and the same element of a Python set. */
  function HashKey(v: Value): (r: Value)
    ensures v.Bool? ==> r == Num(if v.b then 1 else 0)
    ensures !v.Bool? ==> r == v
    ensures !r.Bool?
  {
    if v.Bool? then Num(if v.b then 1 else 0) else v
  }

  predicate OccursAt(sub: string, s: string, i: int)
  {
    0 <= i && i + |sub| <= |s| && s[i..i + |sub|] == sub
  }

  predicate IsSubstring(sub: string, s: string)
  {
    exists i :: 0 <= i <= |s| && OccursAt(sub, s, i)
  }

  /** `key in container` for a string key: a dict tests its keys, a list its
      elements, a string its substrings; `None`, booleans and numbers raise
      (`None` here). A serialised text's characters are not modelled: the
      test answers false on a `Doc`. */
  function Contains(container: Value, key: string): (r: Option<bool>)
    ensures container.Obj? ==> r == Some(key in container.fields)
    ensures container.Arr? ==> r == Some(Str(key) in container.items)
    ensures container.Str? ==> r == Some(IsSubstring(key, container.s))
    ensures container.Doc? ==> r == Some(false)
    ensures r.None? <==> (container.Null? || container.Bool? || container.Num?)
  {
    match container
    case Obj(fs) => Some(key in fs)
    case Arr(xs) => Some(Str(key) in xs)
    case Str(s) => Some(IsSubstring(key, s))
    case Doc(_) => Some(false)
    case _ => None
  }

  /** What `for x in v` visits in a loop whose body needs every element to be
      a dict: a list's elements; nothing for an empty dict or an empty
      string. `None` where Python raises: `v` is not iterable, or the first
      element visited is a dict key or a character, a string, on which the
      loop body raises (a `Doc` is never empty). */
  function DictElements(v: Value): (r: Option<seq<Value>>)
    ensures r.Some? <==> (v.Arr? || v == Obj(map[]) || v == Str(""))
    ensures v.Arr? ==> r == Some(v.items)
    ensures r.Some? && !v.Arr? ==> r.value == []
  {
    match v
    case Arr(xs) => Some(xs)
    case Obj(fs) => if |fs| == 0 then Some([]) else None
    case Str(s) => if |s| == 0 then Some([]) else None
    case _ => None
  }
}
