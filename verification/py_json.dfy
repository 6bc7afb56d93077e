/** The Python values `json.loads` produces, and Python's `v[k]` on them. */
module PyJson {
  import opened Wrappers

  /** A parsed JSON document as Python holds it: `None`, `bool`, `int`,
      `float` (as mantissa times a power of ten), `str`, `list` and a `dict`
      whose keys are all strings (a repeated key keeps its last value). */
  datatype Value =
    | Null
    | Bool(b: bool)
    | Int(i: int)
    | Float(mantissa: int, exponent: int)
    | Str(s: string)
    | List(items: seq<Value>)
    | Dict(entries: map<string, Value>)

  /** The argument of a subscript: a string key or an integer index. */
  datatype Key = Name(name: string) | Index(i: int)

  /** Python's position for index `i` into a sequence of length `n`:
      a negative index counts from the end. */
  function Position(i: int, n: nat): (p: Option<nat>)
    ensures p.Some? <==> -(n as int) <= i < n
    ensures p.Some? ==> p.value < n && (p.value == i || p.value == i + n)
  {
    if 0 <= i < n then Some(i)
    else if -(n as int) <= i < 0 then Some(i + n)
    else None
  }

  /** Python's `v[k]`; `None` where Python raises. A `dict` raises
      `KeyError` for a missing key (and for every integer, since a parsed
      `dict` has only string keys); a `list` or `str` raises `IndexError`
      out of range and `TypeError` for a string key; indexing a `str` gives
      a one-character `str`; every other value raises `TypeError`. */
  function Subscript(v: Value, k: Key): (r: Option<Value>)
    ensures r.Some? ==> v.Dict? || v.List? || v.Str?
    ensures v.Dict? ==> (r.Some? <==> k.Name? && k.name in v.entries)
    ensures v.Dict? && k.Name? && k.name in v.entries ==> r == Some(v.entries[k.name])
    ensures (v.List? || v.Str?) && k.Name? ==> r.None?
    ensures v.List? && k.Index? ==>
              match Position(k.i, |v.items|)
              case Some(p) => r == Some(v.items[p])
              case None => r.None?
    ensures v.Str? && k.Index? ==>
              match Position(k.i, |v.s|)
              case Some(p) => r == Some(Str([v.s[p]]))
              case None => r.None?
  {
    match v
    case Dict(entries) =>
      (match k
       case Name(name) => if name in entries then Some(entries[name]) else None
       case Index(_) => None)
    case List(items) =>
      (match k
       case Index(i) =>
         var p :- Position(i, |items|);
         Some(items[p])
       case Name(_) => None)
    case Str(s) =>
      (match k
       case Index(i) =>
         var p :- Position(i, |s|);
         Some(Str([s[p]]))
       case Name(_) => None)
    case _ => None
  }
}
