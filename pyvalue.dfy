/**
 * The Python objects that flow into and out of the MiniCluster builder:
 * None, booleans, integers, strings, lists and string-keyed dictionaries.
 */
module PyValue {
  import opened Wrappers
  import opened PyInt

  datatype Value =
    | Null
    | Bool(b: bool)
    | Int(i: int)
    | Str(s: string)
    | List(items: seq<Value>)
    | Dict(fields: map<string, Value>)

  /** Python truthiness: `bool(v)`. */
  predicate Truthy(v: Value) {
    match v
    case Null => false
    case Bool(b) => b
    case Int(i) => i != 0
    case Str(s) => s != []
    case List(xs) => xs != []
    case Dict(m) => m != map[]
  }

  /** Python's `int(v)`: None, lists and dictionaries raise TypeError, strings are parsed. */
  function ToInt(v: Value): (r: Result<int, ConvError>)
    ensures r.Success? ==> !v.Null? && !v.List? && !v.Dict?
    ensures v.Int? ==> r == Success(v.i)
  {
    match v
    case Null => Failure(TypeError)
    case Bool(b) => Success(if b then 1 else 0)
    case Int(i) => Success(i)
    case Str(s) => ParseInt(s)
    case List(_) => Failure(TypeError)
    case Dict(_) => Failure(TypeError)
  }

  /** `int(str(n)) == n`, and `int(n) == n`: a port or size given as text or as a number converts alike. */
  lemma ToIntOfShown(n: int)
    ensures ToInt(Str(Show(n))) == Success(n) == ToInt(Int(n))
  {
    ParseShow(n);
  }

  /** `m[k]` if the key is present. */
  function Get(m: map<string, Value>, k: string): (r: Option<Value>)
    ensures r.Some? <==> k in m
    ensures r.Some? ==> r.value == m[k]
  {
    if k in m then Some(m[k]) else None
  }

  /** `o[k]` where `o` may be absent or not a dictionary; absent in both cases. */
  function Dot(o: Option<Value>, k: string): (r: Option<Value>)
    ensures r.Some? <==> o.Some? && o.value.Dict? && k in o.value.fields
    ensures r.Some? ==> r.value == o.value.fields[k]
  {
    if o.Some? && o.value.Dict? then Get(o.value.fields, k) else None
  }

  /** `m[k1][k2] = x` on nested dictionaries: `m[k1]` must already hold a dictionary. */
  function Assign2(m: map<string, Value>, k1: string, k2: string, x: Value): (r: map<string, Value>)
    requires k1 in m && m[k1].Dict?
    ensures r.Keys == m.Keys
    ensures forall k :: k in m && k != k1 ==> r[k] == m[k]
    ensures r[k1] == Dict(m[k1].fields[k2 := x])
  {
    m[k1 := Dict(m[k1].fields[k2 := x])]
  }

  /** `m[k1][k2][k3] = x` on nested dictionaries: both outer levels must already hold dictionaries. */
  function Assign3(m: map<string, Value>, k1: string, k2: string, k3: string, x: Value): (r: map<string, Value>)
    requires k1 in m && m[k1].Dict? && k2 in m[k1].fields && m[k1].fields[k2].Dict?
    ensures r.Keys == m.Keys
    ensures forall k :: k in m && k != k1 ==> r[k] == m[k]
    ensures r[k1] == Dict(Assign2(m[k1].fields, k2, k3, x))
  {
    m[k1 := Dict(Assign2(m[k1].fields, k2, k3, x))]
  }
}
