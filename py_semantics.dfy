/** The pieces of Python semantics that app.py and grpc_server.py rely on when
    they inspect a decoded payload: `in`, `len`, subscription, `json.loads`,
    `str()`, and the exceptions these raise. */
module PySemantics {
  import opened JsonValue

  /** The operation a TypeError comes from. */
  datatype PyOp = Contains | Length | Subscript | Loads

  datatype PyKey = IntKey(i: int) | StrKey(k: string)

  /** The exceptions the normalisation code can raise; every one of them is
      caught by the handlers' `except Exception`. */
  datatype PyExc =
    | TypeError(op: PyOp, operand: Json)
    | KeyError(key: PyKey)
    | IndexError
    | JSONDecodeError(msg: string)
    | Exception(msg: string)

  /** A value or a raised exception; failure-compatible, so `:-` re-raises. */
  datatype PyResult<+T> = Ok(value: T) | Raise(exc: PyExc) {
    predicate IsFailure() { Raise? }

    function PropagateFailure<U>(): PyResult<U>
      requires Raise?
    {
      Raise(exc)
    }

    function Extract(): T
      requires Ok?
    {
      value
    }
  }

  /** Library behaviour the model does not compute: the decoder `json.loads`,
      `str()` of a list or dict, and the text of a TypeError or KeyError. */
  datatype PyLib = PyLib(loads: Parser, repr: Json -> string, faultText: PyExc -> string)

  /** `t` occurs in `s` as a contiguous substring. */
  predicate IsInfix(t: string, s: string)
    decreases |s|
  {
    |t| <= |s| && (t == s[..|t|] || IsInfix(t, s[1..]))
  }

  /** `key in container` for a string `key`. */
  function In(key: string, container: Json): PyResult<bool> {
    match container
    case JObj(f) => Ok(key in f)
    case JArr(xs) => Ok(JStr(key) in xs)
    case JStr(s) => Ok(IsInfix(key, s))
    case _ => Raise(TypeError(Contains, container))
  }

  /** `len(v)`. */
  function Len(v: Json): PyResult<nat> {
    match v
    case JObj(f) => Ok(|f|)
    case JArr(xs) => Ok(|xs|)
    case JStr(s) => Ok(|s|)
    case _ => Raise(TypeError(Length, v))
  }

  /** `v[0]`; a decoded dict has only string keys, so `0` is never one of them. */
  function ItemZero(v: Json): PyResult<Json> {
    match v
    case JArr(xs) => if |xs| > 0 then Ok(xs[0]) else Raise(IndexError)
    case JStr(s) => if |s| > 0 then Ok(JStr([s[0]])) else Raise(IndexError)
    case JObj(_) => Raise(KeyError(IntKey(0)))
    case _ => Raise(TypeError(Subscript, v))
  }

  /** `v[key]` for a string `key`. */
  function Item(v: Json, key: string): PyResult<Json> {
    match v
    case JObj(f) => if key in f then Ok(f[key]) else Raise(KeyError(StrKey(key)))
    case _ => Raise(TypeError(Subscript, v))
  }

  /** `json.loads(v)`: only a `str` is accepted. */
  function JsonLoads(v: Json, py: PyLib): PyResult<Json> {
    match v
    case JStr(s) =>
      (match py.loads(s)
       case Success(j) => Ok(j)
       case Failure(msg) => Raise(JSONDecodeError(msg)))
    case _ => Raise(TypeError(Loads, v))
  }

  /** `str(v)`. */
  function Str(v: Json, py: PyLib): string {
    match v
    case JNull => "None"
    case JBool(b) => if b then "True" else "False"
    case JNum(n) => Decimal(n)
    case JStr(s) => s
    case _ => py.repr(v)
  }

  /** `str(err)`. */
  function ExcText(e: PyExc, py: PyLib): string {
    match e
    case Exception(msg) => msg
    case JSONDecodeError(msg) => msg
    case _ => py.faultText(e)
  }
}
