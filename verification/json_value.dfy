/**
 * JSON values as the webhook handler sees them after `request.get_json()`,
 * together with the few pieces of Python behaviour the handler relies on:
 * truthiness, `dict.get`, and subscripting with a string key or an integer
 * index. A Python exception raised by one of these is an `Err`.
 */
module JsonValue {

  /** A decoded JSON document. Numbers are integers only (see README). */
  datatype Json =
    | Null
    | Bool(b: bool)
    | Num(n: int)
    | Str(s: string)
    | Arr(items: seq<Json>)
    | Obj(fields: map<string, Json>)

  /** The exceptions the handler's lookups can raise. */
  datatype PyError = KeyError | IndexError | TypeError | AttributeError

  /** An evaluation that either yields a value or raises. */
  datatype Result<+T> = Ok(value: T) | Err(error: PyError) {
    predicate IsFailure() { Err? }
    function PropagateFailure<U>(): Result<U> requires Err? { Err(error) }
    function Extract(): T requires Ok? { value }
  }

  datatype Option<+T> = None | Some(value: T)

  /** Python's `bool(j)`: None, False, 0 and empty containers are false. */
  predicate Truthy(j: Json) {
    match j
    case Null => false
    case Bool(b) => b
    case Num(n) => n != 0
    case Str(s) => s != []
    case Arr(items) => items != []
    case Obj(fields) => fields != map[]
  }

  /** True when `j` is a dict holding `key`, so that `j[key]` does not raise. */
  predicate HasKey(j: Json, key: string) {
    j.Obj? && key in j.fields
  }

  /** What `j.get(key)` gives when `j` is a dict, None otherwise. */
  function Field(j: Json, key: string): Json {
    if HasKey(j, key) then j.fields[key] else Null
  }

  /** Python's `j.get(key, default)`: only a dict has a `get` method. */
  function Get(j: Json, key: string, default: Json): (r: Result<Json>)
    ensures r.Ok? <==> j.Obj?
    ensures r.Ok? && HasKey(j, key) ==> r.value == j.fields[key]
    ensures r.Ok? && !HasKey(j, key) ==> r.value == default
  {
    if j.Obj? then Ok(if key in j.fields then j.fields[key] else default)
    else Err(AttributeError)
  }

  /**
   * Python's `j[key]` for a string key: a dict raises KeyError when the key
   * is absent; a list, a string, a number, a bool or None raise TypeError.
   */
  function Item(j: Json, key: string): (r: Result<Json>)
    ensures r.Ok? <==> HasKey(j, key)
    ensures r.Ok? ==> r.value == j.fields[key]
    ensures r == Err(KeyError) <==> j.Obj? && key !in j.fields
  {
    match j
    case Obj(fields) => if key in fields then Ok(fields[key]) else Err(KeyError)
    case _ => Err(TypeError)
  }

  /**
   * Python's `j[i]` for a non-negative integer index: a list or a string
   * raises IndexError when too short (indexing a string gives a one-character
   * string); a dict decoded from JSON has string keys only, so it raises
   * KeyError; None, a number and a bool raise TypeError.
   */
  function At(j: Json, i: nat): (r: Result<Json>)
    ensures r.Ok? <==> (j.Arr? && i < |j.items|) || (j.Str? && i < |j.s|)
    ensures r.Ok? && j.Arr? ==> r.value == j.items[i]
    ensures r.Ok? && j.Str? ==> r.value == Str([j.s[i]])
  {
    match j
    case Arr(items) => if i < |items| then Ok(items[i]) else Err(IndexError)
    case Str(s) => if i < |s| then Ok(Str([s[i]])) else Err(IndexError)
    case Obj(_) => Err(KeyError)
    case _ => Err(TypeError)
  }
}
