/** The `/analyze` handler of server.js after the upstream call: the same two
    cases as the Python back ends, but tested by JavaScript truthiness and
    optional chaining. */
module ExpressServer {
  import opened JsonValue
  import opened JsSemantics
  import opened Airia

  /** `data.output?.[0]?.content?.[0]?.text`, for a `data` that is not null. */
  function NestedText(data: Json): Option<Json> {
    OptProp(OptProp(OptProp(OptProp(Prop(data, "output"), "0"), "content"), "0"), "text")
  }

  /** Lines 43-52: which branch is taken, or the TypeError of reading
      `result` off a `null` payload. */
  function Classify(data: Json): Result<Shape, JsFault> {
    if data.JNull? then Failure(ReadOfNull("result"))
    else
      var r := Prop(data, "result");
      if Truthy(r) && r.value.JStr? then Success(StringResult(r.value.s))
      else if Truthy(NestedText(data)) then Success(NestedContent(NestedText(data).value))
      else Success(NoShape)
  }

  /** `res.json(parsed)`, or the `catch` reply for a `JSON.parse` error. */
  function Decoded(r: Result<Json, string>): Reply {
    match r
    case Success(j) => Reply(200, j)
    case Failure(msg) => ErrorReply(msg)
  }

  /** Lines 41-57. `JSON.parse` converts a non-string text with `String`. */
  function Analyze(data: Json, parse: Parser): Reply {
    match Classify(data)
    case Failure(fault) => ErrorReply(fault.Message())
    case Success(StringResult(s)) => Decoded(parse(s))
    case Success(NestedContent(t)) => Decoded(parse(ToJsString(t)))
    case Success(NoShape) => ErrorReply(UnrecognizedFormat)
  }

  /** Case 1 needs a non-empty string under `result`; then it is taken
      whatever else the payload holds. */
  lemma StringResultChosenIff(data: Json, s: string)
    ensures Classify(data) == Success(StringResult(s)) <==>
            data.JObj? && "result" in data.fields && data.fields["result"] == JStr(s) && s != ""
  {
  }

  /** An empty `result` string is passed over: the payload is classified as
      if it had no `result` at all. */
  lemma EmptyResultFallsThrough(data: Json)
    requires data.JObj? && "result" in data.fields && data.fields["result"] == JStr("")
    ensures Classify(data) == Classify(JObj(data.fields - {"result"}))
  {
    var rest := JObj(data.fields - {"result"});
    assert Prop(rest, "output") == Prop(data, "output");
  }

  /** Along objects and arrays, case 2 is taken exactly when the text is
      truthy; an empty text is an unrecognised payload. */
  lemma NestedTextChosen(data: Json, t: Json)
    requires !Truthy(Prop(data, "result")) || !Prop(data, "result").value.JStr?
    requires NestedAt(data, t)
    ensures Truthy(Some(t)) ==> Classify(data) == Success(NestedContent(t))
    ensures !Truthy(Some(t)) ==> Classify(data) == Success(NoShape)
  {
    var output := data.fields["output"];
    var first := output.items[0];
    var content := first.fields["content"];
    assert OptProp(Prop(data, "output"), "0") == Some(first);
    assert OptProp(Some(first), "content") == Some(content);
    assert OptProp(Some(content), "0") == Some(content.items[0]);
    assert NestedText(data) == Some(t);
  }

  /** A `JSON.parse` error in either case is a 500 carrying its message. */
  lemma ParseErrorIs500(data: Json, parse: Parser)
    requires Classify(data).Success?
    ensures Classify(data).value.StringResult? && parse(Classify(data).value.result).Failure? ==>
              Analyze(data, parse) == ErrorReply(parse(Classify(data).value.result).error)
    ensures Classify(data).value.NestedContent? && parse(ToJsString(Classify(data).value.text)).Failure? ==>
              Analyze(data, parse) == ErrorReply(parse(ToJsString(Classify(data).value.text)).error)
  {
  }

  /** Neither shape: the fixed error message. */
  lemma NoShapeFails(data: Json, parse: Parser)
    requires Classify(data) == Success(NoShape)
    ensures Analyze(data, parse) == ErrorReply(UnrecognizedFormat)
  {
  }

  /** A `null` payload fails on reading `result`. */
  lemma NullPayloadFails(parse: Parser)
    ensures Analyze(JNull, parse) == ErrorReply("Cannot read properties of null (reading 'result')")
  {
    assert ReadOfNull("result").Message() == "Cannot read properties of null (reading 'result')";
  }

  /** A success reply is exactly a decoded text, unchanged. */
  lemma SuccessIsDecodedText(data: Json, parse: Parser)
    requires Analyze(data, parse).status == 200
    ensures Classify(data).Success?
    ensures Classify(data).value.StringResult? ==>
              parse(Classify(data).value.result) == Success(Analyze(data, parse).body)
    ensures Classify(data).value.NestedContent? ==>
              parse(ToJsString(Classify(data).value.text)) == Success(Analyze(data, parse).body)
    ensures !Classify(data).value.NoShape?
  {
  }
}
