/** The Python values that travel between the agents, the tools and the JSON
    wire: `None`, booleans, integers, floats, strings, lists and dicts. Dicts keep
    insertion order (module Dicts). A float is carried as the text Python prints
    for it (`repr`), since the model does no floating-point arithmetic. */
module Json {
  import opened Wrappers
  import opened Strings
  import opened Dicts

  datatype Json =
    | Null
    | Bool(b: bool)
    | Int(i: int)
    | Float(repr: string)
    | Str(s: string)
    | List(items: seq<Json>)
    | Object(fields: seq<(string, Json)>)

  /** What a Python callable does when called: returns a value or raises an
      exception, whose `str(e)` is `message`. */
  datatype Outcome = Returned(value: Json) | Threw(message: string)

  /** `d.get(k)`: `None` when the key is absent. */
  function Get(d: Dict<Json>, k: string): (r: Json)
    ensures HasKey(d, k) ==> Lookup(d, k) == Some(r)
    ensures !HasKey(d, k) ==> r == Null
  {
    GetOr(d, k, Null)
  }

  /** `d.get(k, default)` */
  function GetOr(d: Dict<Json>, k: string, default: Json): Json
  {
    match Lookup(d, k)
    case Some(v) => v
    case None => default
  }

  /** `bool(j)`: Python truthiness. */
  predicate Truthy(j: Json)
  {
    match j
    case Null => false
    case Bool(b) => b
    case Int(i) => i != 0
    case Float(r) => r != "0.0" && r != "-0.0"
    case Str(s) => s != ""
    case List(xs) => xs != []
    case Object(fs) => fs != []
  }

  /** `a or b`: the first operand when it is truthy, otherwise the second. */
  function Or(a: Json, b: Json): (r: Json)
    ensures Truthy(r) <==> Truthy(a) || Truthy(b)
    ensures Truthy(a) ==> r == a
    ensures !Truthy(a) ==> r == b
  {
    if Truthy(a) then a else b
  }

  /** `type(j).__name__` */
  function TypeName(j: Json): string
  {
    match j
    case Null => "NoneType"
    case Bool(_) => "bool"
    case Int(_) => "int"
    case Float(_) => "float"
    case Str(_) => "str"
    case List(_) => "list"
    case Object(_) => "dict"
  }

  /** `str(j)`: a string is itself, anything else is its `repr`. */
  function PyStr(j: Json): string
  {
    if j.Str? then j.s else Repr(j)
  }

  /** `repr(j)`, with strings quoted in single quotes (escaping is not modelled). */
  function Repr(j: Json): string
    decreases j
  {
    match j
    case Null => "None"
    case Bool(b) => if b then "True" else "False"
    case Int(i) => Decimal(i)
    case Float(r) => r
    case Str(s) => "'" + s + "'"
    case List(xs) =>
      "[" + Join(", ", seq(|xs|, k requires 0 <= k < |xs| => Repr(xs[k]))) + "]"
    case Object(fs) =>
      "{" + Join(", ", seq(|fs|, k requires 0 <= k < |fs| => "'" + fs[k].0 + "': " + Repr(fs[k].1))) + "}"
  }

  /** `{"error": message}`, the shape every tool here uses to report a failure. */
  function ErrorDict(message: string): (r: Json)
    ensures r.Object? && Get(r.fields, "error") == Str(message)
    ensures forall k :: k != "error" ==> !HasKey(r.fields, k)
  {
    Object([("error", Str(message))])
  }
}
