/** Loosely typed Python values, as the interception layer and the log
    post-processor receive them, and the few Python operations on them that
    the core relies on: `dict.get`, attribute lookup of `get`, truthiness and
    the type name that appears in an AttributeError message. */
module PyValues {

  datatype Option<+T> = None | Some(value: T)

  datatype Result<+R, +E> = Success(value: R) | Failure(error: E)

  /** A Python value. `Dict` is a `dict` with string keys (key order is not
      kept); `Obj` is an object of some other class that has no `get`
      attribute, is truthy and cannot be indexed, such as an instance of a
      plain user class, known by its type name and its `str()` text. */
  datatype Value =
    | Str(s: string)
    | Int(n: int)
    | Bool(b: bool)
    | NoneVal
    | List(items: seq<Value>)
    | Dict(entries: map<string, Value>)
    | Obj(typeName: string, text: string)

  /** The Python exceptions the modelled code can raise while reading such values. */
  datatype PyError =
    | AttributeError(onType: string, attribute: string)
    | IndexError(onType: string)
    | KeyError(key: string)
    | TypeError(onType: string)

  /** The name `type(v).__name__` gives. */
  function TypeName(v: Value): string
  {
    match v
    case Str(_) => "str"
    case Int(_) => "int"
    case Bool(_) => "bool"
    case NoneVal => "NoneType"
    case List(_) => "list"
    case Dict(_) => "dict"
    case Obj(t, _) => t
  }

  /** What `str(e)` gives for each exception. */
  function ErrorText(e: PyError): string
  {
    match e
    case AttributeError(t, a) => "'" + t + "' object has no attribute '" + a + "'"
    case IndexError(t) => t + " index out of range"
    case KeyError(k) => k
    case TypeError(t) => "'" + t + "' object is not subscriptable"
  }

  /** Python truthiness: empty text, zero, False, None and empty containers are falsy. */
  predicate Truthy(v: Value)
  {
    match v
    case Str(s) => s != ""
    case Int(n) => n != 0
    case Bool(b) => b
    case NoneVal => false
    case List(items) => items != []
    case Dict(entries) => entries != map[]
    case Obj(_, _) => true
  }

  /** `m.get(key, default)` on a dict. */
  function Get(m: map<string, Value>, key: string, default: Value): (r: Value)
    ensures key in m ==> r == m[key]
    ensures key !in m ==> r == default
  {
    if key in m then m[key] else default
  }

  /** `v.get(key, default)` on a value that may not be a dict: anything but a
      dict has no `get` attribute and raises AttributeError. */
  function GetOn(v: Value, key: string, default: Value): (r: Result<Value, PyError>)
    ensures r.Success? <==> v.Dict?
    ensures v.Dict? ==> r.value == Get(v.entries, key, default)
    ensures !v.Dict? ==> r.error == AttributeError(TypeName(v), "get")
  {
    if v.Dict? then Success(Get(v.entries, key, default))
    else Failure(AttributeError(TypeName(v), "get"))
  }
}
