/** The whole path of one analysis: the upstream payload through the gRPC
    servicer to what the UI shows, and the three back ends side by side on
    the same payload. */
module Pipeline {
  import opened JsonValue
  import opened JsSemantics
  import opened PySemantics
  import opened Airia
  import opened Rpc
  import opened Presenter
  import ServiceUi
  import PyShape
  import FlaskApp
  import ExpressServer
  import GrpcServer

  /** What `onEnd` receives for the servicer's answer: the response with
      status 0, or status INTERNAL with the recorded details. The message of
      a failed call is not consulted by the UI and is modelled as absent. */
  function Delivered(data: Json, py: PyLib): UnaryOutput {
    match GrpcServer.Normalized(data, py)
    case Served(m) => UnaryOutput(Some(Decoded(AnalyzeResponse(Some(AnalysisResult(m))))), OK.Value(), "")
    case Aborted(e) => UnaryOutput(None, INTERNAL.Value(), ExcText(e, py))
  }

  /** The output section once the call for `data` has ended. */
  function ShownAfter(data: Json, py: PyLib, parse: Parser): View {
    ServiceOutput(ServiceUi.Completed(Delivered(data, py)), parse)
  }

  /** Every fallback card. */
  const AllFallbacks := Display(
    JStr(NotAvailable), JStr(NotAvailable), [JStr(NoDifferencesText)], [JStr(NoRisksText)],
    JStr(NotAvailable), NotAvailable, [JStr(NoSignalsText)])

  /** A served map is rendered as the response that carries it. */
  lemma ServedIsRendered(data: Json, py: PyLib, parse: Parser)
    requires GrpcServer.Normalized(data, py).Served?
    ensures var m := GrpcServer.Normalized(data, py).data;
            && Delivered(data, py).message == Some(Decoded(AnalyzeResponse(Some(AnalysisResult(m)))))
            && ShownAfter(data, py, parse) == Rendered(Delivered(data, py), parse)
  {
    ServiceUi.EndedShows(ServiceUi.Initial, Delivered(data, py), parse);
  }

  /** Any exception in the servicer reaches the user as "Error: " and its text. */
  lemma AbortShowsStatusMessage(data: Json, py: PyLib, parse: Parser)
    requires GrpcServer.Normalized(data, py).Aborted?
    ensures ShownAfter(data, py, parse) == ErrorBox("Error: " + ExcText(GrpcServer.Normalized(data, py).exc, py))
  {
    ServiceUi.EndedShows(ServiceUi.Initial, Delivered(data, py), parse);
  }

  /** A payload of unknown shape (`{foo: 1}`): both HTTP back ends answer 500
      with the fixed message, and the UI shows it after "Error: ". */
  lemma UnknownShapeScenario(py: PyLib, parse: Parser)
    ensures FlaskApp.Analyze(JObj(map["foo" := JNum(1)]), py) == ErrorReply(UnrecognizedFormat)
    ensures ExpressServer.Analyze(JObj(map["foo" := JNum(1)]), parse) == ErrorReply(UnrecognizedFormat)
    ensures ShownAfter(JObj(map["foo" := JNum(1)]), py, parse) == ErrorBox("Error: " + UnrecognizedFormat)
  {
    var data := JObj(map["foo" := JNum(1)]);
    PyShape.UnknownKeysAreNoShape(data);
    GrpcServer.NoShapeAborts(data, py);
    AbortShowsStatusMessage(data, py, parse);
  }

  /** A `result` string that does not decode is served as the single entry
      `result`; no card shows it, so the UI shows every fallback. */
  lemma UndecodableResultShowsFallbacks(data: Json, s: string, py: PyLib, parse: Parser)
    requires data.JObj? && "result" in data.fields && data.fields["result"] == JStr(s)
    requires py.loads(s).Failure?
    ensures ShownAfter(data, py, parse) == Results(AllFallbacks)
  {
    GrpcServer.StringResultIsServed(data, s, py);
    var m := map["result" := s];
    ServedIsRendered(data, py, parse);
    NoFieldsShowsFallbacks(ObjectOf(m));
    RawEntriesRendered(Delivered(data, py), m, parse);
  }

  /** A decoded `differences` list arrives as the text of Python's `str` of
      the list; a non-empty text has no `.map`, so rendering throws. */
  lemma FlattenedListThrows(data: Json, s: string, fields: map<string, Json>, xs: seq<Json>,
                            py: PyLib, parse: Parser)
    requires data.JObj? && "result" in data.fields && data.fields["result"] == JStr(s)
    requires py.loads(s) == Success(JObj(fields))
    requires "differences" in fields && fields["differences"] == JArr(xs) && "analysis" !in fields
    requires py.repr(JArr(xs)) != ""
    ensures ShownAfter(data, py, parse) == Crash(NotAFunction("analysisData.differences.map"))
  {
    GrpcServer.StringResultIsServed(data, s, py);
    var m := GrpcServer.StringMap(JObj(fields), py);
    GrpcServer.DictKeepsKeys(fields, py);
    assert m["differences"] == py.repr(JArr(xs));
    var d := ObjectOf(m);
    assert "differences" in m;
    assert Prop(d, "differences") == Some(JStr(py.repr(JArr(xs))));
    DifferencesStringThrows(d);
    ServedIsRendered(data, py, parse);
    RawEntriesRendered(Delivered(data, py), m, parse);
  }

  /** `{result: "{\"topic\":\"NDA\",\"summary\":...}"}`: the HTTP back end
      returns the decoded object, and the UI shows the topic and summary with
      every other card at its fallback. */
  lemma NdaScenario(s: string, summary: string, py: PyLib, parse: Parser)
    requires py.loads(s) == Success(JObj(map["topic" := JStr("NDA"), "summary" := JStr(summary)]))
    requires summary != ""
    ensures FlaskApp.Analyze(StringResultPayload(s), py) == Reply(200, py.loads(s).value)
    ensures ShownAfter(StringResultPayload(s), py, parse) ==
              Results(AllFallbacks.(topic := JStr("NDA"), summary := JStr(summary)))
  {
    var data := StringResultPayload(s);
    FlaskApp.StringResultDecides(data, s, py);
    GrpcServer.StringResultIsServed(data, s, py);
    var fields := map["topic" := JStr("NDA"), "summary" := JStr(summary)];
    var m := GrpcServer.StringMap(JObj(fields), py);
    GrpcServer.DictKeepsKeys(fields, py);
    assert m == map["topic" := "NDA", "summary" := summary];
    NdaCards(summary);
    ServedIsRendered(data, py, parse);
    RawEntriesRendered(Delivered(data, py), m, parse);
  }

  /** The cards of the NDA object. */
  lemma NdaCards(summary: string)
    requires summary != ""
    ensures Fields(ObjectOf(map["topic" := "NDA", "summary" := summary])) ==
              Success(AllFallbacks.(topic := JStr("NDA"), summary := JStr(summary)))
  {
    var d := ObjectOf(map["topic" := "NDA", "summary" := summary]);
    assert d == JObj(map["topic" := JStr("NDA"), "summary" := JStr(summary)]);
    ListItemsChain(d, "differences", Some("differences_string"), NoDifferencesText);
    ListItemsChain(d, "risk_flags", Some("risk_analysis"), NoRisksText);
    ListItemsChain(d, "fake_contract_signals", None, NoSignalsText);
    TextCardsUseTruthiness(d);
  }

  /** app.py and the gRPC servicer agree on every payload except a `result`
      string that does not decode: app.py answers 500, the servicer serves
      the raw string. */
  lemma AppAndServicerAgree(data: Json, py: PyLib)
    ensures FlaskApp.Parsed(data, py).Ok? ==>
              GrpcServer.Normalized(data, py) == GrpcServer.Served(GrpcServer.StringMap(FlaskApp.Parsed(data, py).value, py))
    ensures FlaskApp.Parsed(data, py).Raise? && !HasStringResult(data) ==>
              GrpcServer.Normalized(data, py) == GrpcServer.Aborted(FlaskApp.Parsed(data, py).exc)
    ensures FlaskApp.Parsed(data, py).Raise? && HasStringResult(data) ==>
              GrpcServer.Normalized(data, py) == GrpcServer.Served(map["result" := data.fields["result"].s])
  {
    if HasStringResult(data) {
      PyShape.StringResultChosenIff(data, data.fields["result"].s);
    } else if PyShape.Classify(data).Ok? && PyShape.Classify(data).value.StringResult? {
      PyShape.StringResultChosenIff(data, PyShape.Classify(data).value.result);
    }
  }

  /** On a non-empty `result` string, server.js and app.py give the same
      reply when their decoders agree on it. */
  lemma ServerAndAppAgreeOnStringResult(data: Json, s: string, py: PyLib, parse: Parser)
    requires data.JObj? && "result" in data.fields && data.fields["result"] == JStr(s) && s != ""
    requires parse(s) == py.loads(s)
    ensures ExpressServer.Analyze(data, parse) == FlaskApp.Analyze(data, py)
  {
    ExpressServer.StringResultChosenIff(data, s);
    FlaskApp.StringResultDecides(data, s, py);
  }

  /** An empty `result` string with a nested text: server.js takes case 2
      and succeeds, app.py takes case 1 and fails, the servicer serves the
      empty string. */
  lemma EmptyResultDiverges(data: Json, t: string, py: PyLib, parse: Parser)
    requires data.JObj? && "result" in data.fields && data.fields["result"] == JStr("")
    requires NestedAt(data, JStr(t)) && t != ""
    requires parse(t).Success? && py.loads("").Failure?
    ensures ExpressServer.Analyze(data, parse) == Reply(200, parse(t).value)
    ensures FlaskApp.Analyze(data, py) == ErrorReply(py.loads("").error)
    ensures GrpcServer.Normalized(data, py) == GrpcServer.Served(map["result" := ""])
  {
    ExpressServer.NestedTextChosen(data, JStr(t));
    FlaskApp.EmptyResultFails(data, py);
    GrpcServer.StringResultIsServed(data, "", py);
  }

  /** The two upstream formats carrying the same text give the same HTTP
      reply (for server.js, a non-empty text); the servicer agrees only when
      the text decodes, since a case-1 decoding error is not an error there. */
  lemma FormatsAreInterchangeable(t: string, py: PyLib, parse: Parser)
    ensures FlaskApp.Analyze(StringResultPayload(t), py) == FlaskApp.Analyze(NestedPayload(JStr(t)), py)
    ensures t != "" ==>
              ExpressServer.Analyze(StringResultPayload(t), parse) == ExpressServer.Analyze(NestedPayload(JStr(t)), parse)
    ensures py.loads(t).Success? ==>
              GrpcServer.Normalized(StringResultPayload(t), py) == GrpcServer.Normalized(NestedPayload(JStr(t)), py)
    ensures py.loads(t).Failure? ==>
              && GrpcServer.Normalized(StringResultPayload(t), py) == GrpcServer.Served(map["result" := t])
              && GrpcServer.Normalized(NestedPayload(JStr(t)), py).Aborted?
  {
    var flat := StringResultPayload(t);
    var nested := NestedPayload(JStr(t));
    assert NestedAt(nested, JStr(t));
    FlaskApp.StringResultDecides(flat, t, py);
    FlaskApp.NestedTextDecides(nested, t, py);
    GrpcServer.StringResultIsServed(flat, t, py);
    PyShape.NestedContentChosenIff(nested, JStr(t));
    ExpressServer.StringResultChosenIff(flat, t);
    ExpressServer.NestedTextChosen(nested, JStr(t));
  }

  /** `output` given as an object keyed "0" rather than a list: server.js
      reaches the text through `?.[0]`, app.py's list tests fail. */
  lemma ZeroKeyedOutputDiverges(t: string)
    requires t != ""
    ensures var data := JObj(map["output" := JObj(map["0" := JObj(map["content" := JArr([JObj(map["text" := JStr(t)])])])])]);
            && ExpressServer.Classify(data) == Success(NestedContent(JStr(t)))
            && PyShape.Classify(data) == Ok(NoShape)
  {
  }

  /** `content` given as an object keyed "0" rather than a list: server.js
      reaches the text, app.py's `[0]` on the dict raises `KeyError(0)`. */
  lemma ZeroKeyedContentDiverges(t: string)
    requires t != ""
    ensures var data := JObj(map["output" := JArr([JObj(map["content" := JObj(map["0" := JObj(map["text" := JStr(t)])])])])]);
            && ExpressServer.Classify(data) == Success(NestedContent(JStr(t)))
            && PyShape.Classify(data) == Raise(KeyError(IntKey(0)))
  {
  }
}
