/**
 * The Python values that flow between the agents, the managers and the
 * workflows: JSON-like dictionaries, the outcome of a call that may raise,
 * and the few pieces of Python behaviour the core relies on (`dict.get`
 * with a default, subscripting, truthiness, `str()` and `', '.join`).
 */
module Values {

  datatype Option<T> = None | Some(value: T)

  datatype Result<T> = Ok(value: T) | Err(error: string)

  /** A Python value as it appears inside the request and result dictionaries. */
  datatype Value =
    | Null
    | Bool(b: bool)
    | Int(i: int)
    | Str(s: string)
    | List(items: seq<Value>)
    | Obj(fields: map<string, Value>)

  /** A Python `Dict[str, Any]`. */
  type Dict = map<string, Value>

  /** What a Python call produces: a returned dictionary, or a raised exception with its `str(e)`. */
  datatype Outcome = Returned(result: Dict) | Raised(fault: string)

  /** `d.get(k, default)` */
  function GetOr(d: Dict, k: string, default: Value): Value
  {
    if k in d then d[k] else default
  }

  /** `v.get(k, default)` for a value that is known to be a dictionary. */
  function FieldOr(v: Value, k: string, default: Value): Value
    requires v.Obj?
  {
    GetOr(v.fields, k, default)
  }

  /** Python's `bool(v)`. */
  predicate Truthy(v: Value)
  {
    match v
    case Null => false
    case Bool(b) => b
    case Int(i) => i != 0
    case Str(s) => s != ""
    case List(xs) => xs != []
    case Obj(m) => m != map[]
  }

  /** `v[k]` with a string key: a missing key raises KeyError, whose `str` is the quoted key. */
  function Subscript(v: Value, k: string): (r: Result<Value>)
    ensures r.Ok? <==> v.Obj? && k in v.fields
    ensures r.Ok? ==> r.value == v.fields[k]
    ensures v.Obj? && k !in v.fields ==> r == Err(Quote(k))
  {
    match v
    case Obj(m) => if k in m then Ok(m[k]) else Err(Quote(k))
    case Str(_) => Err("string indices must be integers, not 'str'")
    case List(_) => Err("list indices must be integers or slices, not str")
    case Null => Err("'NoneType' object is not subscriptable")
    case Bool(_) => Err("'bool' object is not subscriptable")
    case Int(_) => Err("'int' object is not subscriptable")
  }

  function Quote(s: string): string
  {
    "'" + s + "'"
  }

  /** `sep.join(parts)` */
  function Join(sep: string, parts: seq<string>): string
  {
    if |parts| == 0 then ""
    else if |parts| == 1 then parts[0]
    else parts[0] + sep + Join(sep, parts[1..])
  }

  function QuoteAll(ss: seq<string>): (r: seq<string>)
    ensures |r| == |ss|
  {
    if ss == [] then [] else [Quote(ss[0])] + QuoteAll(ss[1..])
  }

  /** `repr` of a list of plain strings, as an f-string renders it: `['a', 'b']`. */
  function ListRepr(ss: seq<string>): string
  {
    "[" + Join(", ", QuoteAll(ss)) + "]"
  }

  /** A Python list of strings. */
  function StrList(ss: seq<string>): (v: Value)
    ensures v.List? && |v.items| == |ss|
    ensures forall i :: 0 <= i < |ss| ==> v.items[i] == Str(ss[i])
  {
    List(seq(|ss|, i requires 0 <= i < |ss| => Str(ss[i])))
  }

  function DigitsOf(n: nat): string
  {
    if n < 10 then [(48 + n) as char] else DigitsOf(n / 10) + [(48 + n % 10) as char]
  }

  /** The name Python's `type(v).__name__` gives. */
  function TypeName(v: Value): string
  {
    match v
    case Null => "NoneType"
    case Bool(_) => "bool"
    case Int(_) => "int"
    case Str(_) => "str"
    case List(_) => "list"
    case Obj(_) => "dict"
  }

  /** The TypeError `', '.join(items[from..])` raises at the first item that is not a string. */
  function ItemFault(items: seq<Value>, from: nat): (r: Option<string>)
    requires from <= |items|
    ensures r.None? <==> forall k :: from <= k < |items| ==> items[k].Str?
    decreases |items| - from
  {
    if from == |items| then None
    else if !items[from].Str? then
      Some("sequence item " + DigitsOf(from) + ": expected str instance, " + TypeName(items[from]) + " found")
    else ItemFault(items, from + 1)
  }

  /**
   * The TypeError `', '.join(v)` raises, if any: a string is joined character
   * by character and a dictionary over its keys, so neither raises; a list
   * raises at its first non-string item; anything else is not iterable.
   */
  function JoinFault(v: Value): (r: Option<string>)
    ensures r.None? <==> v.Str? || v.Obj? || (v.List? && forall k :: 0 <= k < |v.items| ==> v.items[k].Str?)
  {
    match v
    case Str(_) => None
    case Obj(_) => None
    case List(items) => ItemFault(items, 0)
    case _ => Some("can only join an iterable")
  }

  /** The fault of `', '.join(v) if isinstance(v, list) else v`. */
  function ListJoinFault(v: Value): (r: Option<string>)
    ensures r.None? <==> !v.List? || forall k :: 0 <= k < |v.items| ==> v.items[k].Str?
  {
    if v.List? then JoinFault(v) else None
  }

  /** The first of two faults, in evaluation order. */
  function FirstFault(a: Option<string>, b: Option<string>): (r: Option<string>)
    ensures r.None? <==> a.None? && b.None?
  {
    if a.Some? then a else b
  }

  /**
   * Python's `str(v)` as an f-string uses it. Strings, None, booleans and
   * integers are rendered as Python does; lists and dictionaries get a
   * placeholder (their repr is not part of this model).
   */
  function PyStr(v: Value): string
  {
    match v
    case Str(s) => s
    case Null => "None"
    case Bool(b) => if b then "True" else "False"
    case Int(i) => if i < 0 then "-" + DigitsOf(-i) else DigitsOf(i)
    case List(_) => "[...]"
    case Obj(_) => "{...}"
  }
}
