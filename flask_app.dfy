/** The `/analyze` handler of app.py after the upstream call: classify the
    decoded payload, decode the embedded JSON, reply with it, or reply 500. */
module FlaskApp {
  import opened JsonValue
  import opened PySemantics
  import opened Airia
  import opened PyShape

  /** Lines 44-62: `parsed`, or the exception raised on the way. */
  function Parsed(data: Json, py: PyLib): PyResult<Json> {
    var shape :- Classify(data);
    match shape
    case StringResult(s) => JsonLoads(JStr(s), py)
    case NestedContent(t) => JsonLoads(t, py)
    case NoShape => Raise(Exception(UnrecognizedFormat))
  }

  /** Lines 64-68: `jsonify(parsed)`, or 500 with `{"error": str(err)}`. */
  function Analyze(data: Json, py: PyLib): Reply {
    match Parsed(data, py)
    case Ok(j) => Reply(200, j)
    case Raise(e) => ErrorReply(ExcText(e, py))
  }

  /** A string `result` decides the reply on its own: its decoding is the
      body, and a decoding error is a 500 with the decoder's message; case 2
      is never tried, whatever `output` holds. */
  lemma StringResultDecides(data: Json, s: string, py: PyLib)
    requires data.JObj? && "result" in data.fields && data.fields["result"] == JStr(s)
    ensures py.loads(s).Success? ==> Analyze(data, py) == Reply(200, py.loads(s).value)
    ensures py.loads(s).Failure? ==> Analyze(data, py) == ErrorReply(py.loads(s).error)
  {
    StringResultChosenIff(data, s);
  }

  /** An empty `result` string is still case 1, so it ends in the 500 reply
      of a decoding error. */
  lemma EmptyResultFails(data: Json, py: PyLib)
    requires data.JObj? && "result" in data.fields && data.fields["result"] == JStr("")
    requires py.loads("").Failure?
    ensures Analyze(data, py) == ErrorReply(py.loads("").error)
  {
    StringResultDecides(data, "", py);
  }

  /** Case 2 with a string text: the reply is its decoding or the 500 of the
      decoding error. */
  lemma NestedTextDecides(data: Json, t: string, py: PyLib)
    requires !HasStringResult(data) && NestedAt(data, JStr(t))
    ensures py.loads(t).Success? ==> Analyze(data, py) == Reply(200, py.loads(t).value)
    ensures py.loads(t).Failure? ==> Analyze(data, py) == ErrorReply(py.loads(t).error)
  {
    NestedContentChosenIff(data, JStr(t));
  }

  /** Case 2 with a text that is not a string: `json.loads` raises a TypeError. */
  lemma NestedNonStringFails(data: Json, t: Json, py: PyLib)
    requires !HasStringResult(data) && NestedAt(data, t) && !t.JStr?
    ensures Analyze(data, py) == ErrorReply(py.faultText(TypeError(Loads, t)))
  {
    NestedContentChosenIff(data, t);
  }

  /** A payload of no known shape gets the fixed error message. */
  lemma NoShapeFails(data: Json, py: PyLib)
    requires Classify(data) == Ok(NoShape)
    ensures Analyze(data, py) == ErrorReply(UnrecognizedFormat)
  {
  }

  /** A success reply is exactly the decoding of the recognised text, with
      nothing renamed or added. */
  lemma SuccessIsDecodedText(data: Json, py: PyLib)
    requires Analyze(data, py).status == 200
    ensures exists s :: ((data.JObj? && "result" in data.fields && data.fields["result"] == JStr(s))
                         || (!HasStringResult(data) && NestedAt(data, JStr(s))))
                        && py.loads(s) == Success(Analyze(data, py).body)
  {
    var shape := Classify(data).value;
    match shape {
      case StringResult(s) =>
        StringResultChosenIff(data, s);
        assert py.loads(s) == Success(Analyze(data, py).body);
      case NestedContent(t) =>
        NestedContentChosenIff(data, t);
        assert py.loads(t.s) == Success(Analyze(data, py).body);
      case NoShape =>
    }
  }
}
