/** Values the core passes around: bytes on the wire, decoded JSON values,
    the exceptions it raises or lets through, and the few Python operations
    on JSON values whose failure cases the core depends on. */
module Values {

  type byte = b: int | 0 <= b < 256

  /** Data on a socket (a Python 2 `str`, i.e. a byte string). */
  type Bytes = seq<byte>

  datatype Option<T> = None | Some(value: T)

  /** A value as `json.loads` produces it (floating-point numbers are not modelled). */
  datatype Json =
    | JNull
    | JBool(b: bool)
    | JInt(i: int)
    | JStr(s: string)
    | JList(items: seq<Json>)
    | JDict(fields: map<string, Json>)

  /** The instance attributes of an object (`vars(obj)`), or a class's attributes. */
  type Attrs = map<string, Json>

  /** An exception, with the text `str(e)` gives. The wording of the messages
      Python's runtime produces (TypeError, AttributeError, ...) is approximate;
      the messages the repository writes itself are exact. */
  datatype Error =
    | ProcessError(msg: string)        // regent/exceptions.py
    | SocketError(msg: string)         // regent/exceptions.py
    | DoesNotExist(msg: string)        // regent/exceptions.py
    | ValueError(msg: string)
    | TypeError(msg: string)
    | AttributeError(msg: string)
    | ImportError(msg: string)
    | NameError(msg: string)
    | KeyError(msg: string)            // msg is the missing key
    | Raised(kind: string, msg: string) // anything else an operation's own code raises

  /** `str(e)`: a KeyError quotes its key, every other exception shows its message. */
  function Text(e: Error): string
  {
    if e.KeyError? then "'" + e.msg + "'" else e.msg
  }

  datatype Result<T> = Ok(value: T) | Err(error: Error)

  /** `type(j).__name__` */
  function TypeName(j: Json): string
  {
    match j
    case JNull => "NoneType"
    case JBool(_) => "bool"
    case JInt(_) => "int"
    case JStr(_) => "str"
    case JList(_) => "list"
    case JDict(_) => "dict"
  }

  predicate IsSubstring(needle: string, hay: string)
  {
    exists i, j :: 0 <= i <= j <= |hay| && hay[i..j] == needle
  }

  /** Python's `key in container` for a string `key`: a key of a dict, an
      element of a list, a substring of a string; anything else is not iterable. */
  function Contains(container: Json, key: string): (r: Result<bool>)
    ensures container.JDict? ==> r == Ok(key in container.fields)
    ensures container.JList? ==> r == Ok(JStr(key) in container.items)
    ensures r.Err? <==> container.JNull? || container.JBool? || container.JInt?
  {
    match container
    case JDict(f) => Ok(key in f)
    case JList(items) => Ok(JStr(key) in items)
    case JStr(s) => Ok(IsSubstring(key, s))
    case _ => Err(TypeError("argument of type '" + TypeName(container) + "' is not iterable"))
  }

  /** Python's `container[key]` for a string `key`. */
  function GetItem(container: Json, key: string): (r: Result<Json>)
    ensures r.Ok? <==> container.JDict? && key in container.fields
    ensures r.Ok? ==> r.value == container.fields[key]
    ensures container.JDict? && key !in container.fields ==> r == Err(KeyError(key))
  {
    match container
    case JDict(f) => if key in f then Ok(f[key]) else Err(KeyError(key))
    case JList(_) => Err(TypeError("list indices must be integers, not str"))
    case JStr(_) => Err(TypeError("string indices must be integers"))
    case _ => Err(TypeError("'" + TypeName(container) + "' object is not subscriptable"))
  }

  /** `d.get(key)`: the value, or None when the key is absent. */
  function Get(d: map<string, Json>, key: string): (v: Json)
    ensures key in d ==> v == d[key]
    ensures key !in d ==> v == JNull
  {
    if key in d then d[key] else JNull
  }

  /** Python truthiness of a JSON value. */
  predicate Truthy(j: Json)
  {
    match j
    case JNull => false
    case JBool(b) => b
    case JInt(i) => i != 0
    case JStr(s) => s != ""
    case JList(items) => items != []
    case JDict(f) => f != map[]
  }

  /** Concatenation regroups; stated once so that traces built in steps
      compare cheaply. */
  /** Taking `k` and then `m` more from `s` is taking `k + m`. */
  lemma Split<T>(s: seq<T>, k: nat, m: nat)
    requires k + m <= |s|
    ensures s[k..][..m] == s[k..k + m] && s[k..][m..] == s[k + m..]
    ensures s[..k + m] == s[..k] + s[k..k + m]
  {
  }

  lemma Associative<T>(a: seq<T>, b: seq<T>, c: seq<T>)
    ensures (a + b) + c == a + (b + c)
  {
  }

  /** Removing a key undoes an update of it. */
  lemma RemoveUpdated<K, V>(m: map<K, V>, k: K, v: V)
    ensures m[k := v] - {k} == m - {k}
  {
  }
}
