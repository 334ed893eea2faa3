/** Python-level values as the modelled code sees them: decoded JSON, Python's truthiness
    and `len`, `dict.get`, the exceptions the code can raise, and the outcome of a call that
    either returns or raises. */
module PyValues {

  datatype Option<+T> = None | Some(value: T) {
    function GetOr(default: T): T {
      match this
      case Some(v) => v
      case None => default
    }
  }

  /** A decoded JSON value (what `json.loads` or `response.json()` gives back).
      Numbers are integers; floats are not modelled. */
  datatype Json =
    | JNull
    | JBool(b: bool)
    | JNum(n: int)
    | JStr(s: string)
    | JArr(items: seq<Json>)
    | JObj(fields: map<string, Json>)

  /** The exceptions the modelled code can raise. */
  datatype PyError =
    | KeyError(key: string)        // `d[k]` on a dict without k
    | TypeError                    // `len` of a number, indexing or iterating what does not allow it
    | AttributeError               // `.get` on a value that is not a dict
    | JsonDecodeError              // `json.loads` on text that is not JSON
    | ValueError(message: string)  // raised explicitly by the code

  /** What a Python call does: it returns a value or it raises. */
  datatype Outcome<+T> = Returned(value: T) | Raised(error: PyError) {
    predicate IsFailure() {
      Raised?
    }

    function PropagateFailure<U>(): Outcome<U>
      requires Raised?
    {
      Raised(error)
    }

    function Extract(): T
      requires Returned?
    {
      value
    }
  }

  /** `bool(v)`. */
  predicate Truthy(v: Json) {
    match v
    case JNull => false
    case JBool(b) => b
    case JNum(n) => n != 0
    case JStr(s) => s != ""
    case JArr(a) => a != []
    case JObj(m) => m != map[]
  }

  /** `len(v)`: the size of a string, list or dict; a TypeError for None, booleans and numbers.
      For a sized value, length zero is exactly falsiness. */
  function Len(v: Json): (r: Outcome<nat>)
    ensures r.Raised? <==> (v.JNull? || v.JBool? || v.JNum?)
    ensures r.Raised? ==> r.error == TypeError
    ensures r.Returned? ==> (r.value == 0 <==> !Truthy(v))
  {
    match v
    case JStr(s) => Returned(|s|)
    case JArr(a) => Returned(|a|)
    case JObj(m) =>
      assert m != map[] ==> exists k :: k in m.Keys;
      Returned(|m.Keys|)
    case _ => Raised(TypeError)
  }

  /** `d.get(k)`. */
  function Get(d: map<string, Json>, k: string): Json {
    if k in d then d[k] else JNull
  }

  /** `d.get(k, default)`. */
  function GetOr(d: map<string, Json>, k: string, default: Json): Json {
    if k in d then d[k] else default
  }

  /** `v.get(k, default)` where `v` need not be a dict: an AttributeError unless it is one. */
  function Lookup(v: Json, k: string, default: Json): (r: Outcome<Json>)
    ensures r.Returned? <==> v.JObj?
    ensures r.Raised? ==> r.error == AttributeError
    ensures v.JObj? && k !in v.fields ==> r == Returned(default)
  {
    match v
    case JObj(m) => Returned(GetOr(m, k, default))
    case _ => Raised(AttributeError)
  }

  /** `v[k]` for a string key: a KeyError on a dict without k, a TypeError on a value that is
      not a dict. */
  function Subscript(v: Json, k: string): (r: Outcome<Json>)
    ensures r.Returned? <==> v.JObj? && k in v.fields
    ensures r.Returned? ==> r.value == v.fields[k]
    ensures r.Raised? ==> r.error == (if v.JObj? then KeyError(k) else TypeError)
  {
    match v
    case JObj(m) => if k in m then Returned(m[k]) else Raised(KeyError(k))
    case _ => Raised(TypeError)
  }

  /** `str(e)`. Python's text is kept for KeyError (the quoted key) and ValueError (its
      message); for the other exceptions the class name stands in for the text. */
  function ErrorText(e: PyError): string {
    match e
    case KeyError(k) => "'" + k + "'"
    case TypeError => "TypeError"
    case AttributeError => "AttributeError"
    case JsonDecodeError => "JSONDecodeError"
    case ValueError(m) => m
  }
}
