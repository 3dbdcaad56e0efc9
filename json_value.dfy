/** JSON values as the JSON libraries of Node and of Python decode them, the
    Option/Result wrappers the rest of the model uses, and the decimal
    rendering both runtimes give to integers. */
module JsonValue {

  datatype Option<+T> = None | Some(value: T)

  /** A value or an error; failure-compatible, so `:-` propagates the error. */
  datatype Result<+T, +E> = Success(value: T) | Failure(error: E) {
    predicate IsFailure() { Failure? }

    function PropagateFailure<U>(): Result<U, E>
      requires Failure?
    {
      Failure(error)
    }

    function Extract(): T
      requires Success?
    {
      value
    }
  }

  /** A decoded JSON value. Numbers are integers (see README, "Left out"). */
  datatype Json =
    | JNull
    | JBool(b: bool)
    | JNum(n: int)
    | JStr(s: string)
    | JArr(items: seq<Json>)
    | JObj(fields: map<string, Json>)

  /** A library JSON decoder (`JSON.parse`, `json.loads`): the decoded value, or
      the message of the error it raises. Decoding itself is library behaviour
      and is not modelled, so every operation takes the decoder as a parameter. */
  type Parser = string -> Result<Json, string>

  function DigitChar(d: nat): (c: char)
    requires d < 10
  {
    ('0' as int + d) as char
  }

  /** The decimal digits of `n`, most significant first, without leading zeros. */
  function Digits(n: nat): (r: string)
    ensures |r| > 0
    ensures forall i :: 0 <= i < |r| ==> '0' <= r[i] <= '9'
    ensures r[0] == '0' <==> n == 0
  {
    if n < 10 then [DigitChar(n)] else Digits(n / 10) + [DigitChar(n % 10)]
  }

  /** `str(n)` in Python and `String(n)` in JavaScript for an integer `n`. */
  function Decimal(n: int): string
  {
    if n < 0 then "-" + Digits(-n) else Digits(n)
  }
}
