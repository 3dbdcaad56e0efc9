/** `AnalysisServiceServicer.Analyze` of grpc_server.py from the decoded
    upstream payload on: the shape test it shares with app.py, a case-1
    decoding error that keeps the raw string, the conversion of the decoded
    value to `map<string, string>`, and the mapping of exceptions to the
    INTERNAL status. */
module GrpcServer {
  import opened JsonValue
  import opened PySemantics
  import opened Airia
  import opened PyShape
  import opened Rpc

  /** The part of `grpc.ServicerContext` the servicer writes. */
  class ServicerContext {
    var code: StatusCode
    var details: string

    constructor ()
      ensures code == OK && details == ""
    {
      code := OK;
      details := "";
    }

    method SetDetails(d: string)
      modifies this`details
      ensures details == d
    {
      details := d;
    }

    method SetCode(c: StatusCode)
      modifies this`code
      ensures code == c
    {
      code := c;
    }
  }

  /** What lines 49-80 produce: the response map, or the exception that the
      handler at line 86 catches. */
  datatype Outcome = Served(data: map<string, string>) | Aborted(exc: PyExc)

  /** Lines 74-80 as a value: a dict keeps its keys with `str` of each value,
      anything else becomes the single entry `result`. */
  function StringMap(parsed: Json, py: PyLib): map<string, string> {
    if parsed.JObj? then map k | k in parsed.fields :: Str(parsed.fields[k], py)
    else map["result" := Str(parsed, py)]
  }

  /** Lines 49-80 as a value. */
  function Normalized(data: Json, py: PyLib): Outcome {
    match Classify(data)
    case Raise(e) => Aborted(e)
    case Ok(StringResult(s)) =>
      var parsed := match py.loads(s) case Success(j) => j case Failure(_) => JStr(s);
      Served(StringMap(parsed, py))
    case Ok(NestedContent(t)) =>
      (match JsonLoads(t, py)
       case Ok(j) => Served(StringMap(j, py))
       case Raise(e) => Aborted(e))
    case Ok(NoShape) => Aborted(Exception(UnrecognizedFormat))
  }

  /** Lines 74-80: `result_data` filled entry by entry. Python's keys of a
      decoded dict are already strings, so `str(k)` is `k`. */
  method ToStringMap(parsed: Json, py: PyLib) returns (resultData: map<string, string>)
    ensures parsed.JObj? ==> resultData.Keys == parsed.fields.Keys
    ensures parsed.JObj? ==> forall k :: k in resultData ==> resultData[k] == Str(parsed.fields[k], py)
    ensures !parsed.JObj? ==> resultData == map["result" := Str(parsed, py)]
    ensures resultData == StringMap(parsed, py)
  {
    resultData := map[];
    if parsed.JObj? {
      var pending := parsed.fields.Keys;
      while pending != {}
        invariant pending <= parsed.fields.Keys
        invariant resultData.Keys == parsed.fields.Keys - pending
        invariant forall k :: k in resultData ==> resultData[k] == Str(parsed.fields[k], py)
        decreases pending
      {
        var k :| k in pending;
        resultData := resultData[k := Str(parsed.fields[k], py)];
        pending := pending - {k};
      }
    } else {
      resultData := resultData["result" := Str(parsed, py)];
    }
  }

  /** Lines 86-90: record `str(err)` and INTERNAL, answer an empty response. */
  method Abort(context: ServicerContext, err: PyExc, py: PyLib) returns (response: AnalyzeResponse)
    modifies context
    ensures context.details == ExcText(err, py) && context.code == INTERNAL
    ensures response == AnalyzeResponse(None)
  {
    context.SetDetails(ExcText(err, py));
    context.SetCode(INTERNAL);
    response := AnalyzeResponse(None);
  }

  /** Lines 49-90. On success the response carries the map and the context is
      left alone; on any exception the context holds INTERNAL and `str(err)`
      and the response is empty. */
  method Analyze(context: ServicerContext, data: Json, py: PyLib) returns (response: AnalyzeResponse)
    modifies context
    ensures Normalized(data, py).Served? ==>
              && response == AnalyzeResponse(Some(AnalysisResult(Normalized(data, py).data)))
              && context.code == old(context.code) && context.details == old(context.details)
    ensures Normalized(data, py).Aborted? ==>
              && response == AnalyzeResponse(None)
              && context.code == INTERNAL && context.details == ExcText(Normalized(data, py).exc, py)
  {
    var parsed: Json;
    var shape := Classify(data);
    if shape.Raise? {
      response := Abort(context, shape.exc, py);
      return;
    }
    match shape.value {
      case StringResult(s) =>
        match py.loads(s) {
          case Success(j) =>
            parsed := j;
          case Failure(_) =>
            parsed := JStr(s);
        }
      case NestedContent(t) =>
        var loaded := JsonLoads(t, py);
        if loaded.Raise? {
          response := Abort(context, loaded.exc, py);
          return;
        }
        parsed := loaded.value;
      case NoShape =>
        response := Abort(context, Exception(UnrecognizedFormat), py);
        return;
    }
    var resultData := ToStringMap(parsed, py);
    response := AnalyzeResponse(Some(AnalysisResult(resultData)));
  }

  /** A string `result` never fails: when it does not decode, the response
      map is exactly `{"result": <the raw string>}`, whatever `output` holds. */
  lemma StringResultIsServed(data: Json, s: string, py: PyLib)
    requires data.JObj? && "result" in data.fields && data.fields["result"] == JStr(s)
    ensures Normalized(data, py).Served?
    ensures py.loads(s).Failure? ==> Normalized(data, py) == Served(map["result" := s])
    ensures py.loads(s).Success? ==> Normalized(data, py) == Served(StringMap(py.loads(s).value, py))
  {
    StringResultChosenIff(data, s);
  }

  /** A case-2 text that does not decode aborts with the decoder's error. */
  lemma NestedDecodeErrorAborts(data: Json, t: string, py: PyLib)
    requires !HasStringResult(data) && NestedAt(data, JStr(t))
    requires py.loads(t).Failure?
    ensures Normalized(data, py) == Aborted(JSONDecodeError(py.loads(t).error))
  {
    NestedContentChosenIff(data, JStr(t));
  }

  /** Neither shape: abort with the fixed message. */
  lemma NoShapeAborts(data: Json, py: PyLib)
    requires Classify(data) == Ok(NoShape)
    ensures Normalized(data, py) == Aborted(Exception(UnrecognizedFormat))
    ensures ExcText(Normalized(data, py).exc, py) == UnrecognizedFormat
  {
  }

  /** A decoded dict gives exactly its keys, each with `str` of its value. */
  lemma DictKeepsKeys(fields: map<string, Json>, py: PyLib)
    ensures StringMap(JObj(fields), py).Keys == fields.Keys
    ensures forall k :: k in fields ==> StringMap(JObj(fields), py)[k] == Str(fields[k], py)
  {
  }

  /** Anything but a dict gives the single entry `result`. */
  lemma OtherIsSingleResult(parsed: Json, py: PyLib)
    requires !parsed.JObj?
    ensures StringMap(parsed, py).Keys == {"result"}
  {
  }

  /** The map is empty only for an empty dict. */
  lemma EmptyOnlyForEmptyDict(parsed: Json, py: PyLib)
    ensures StringMap(parsed, py) == map[] <==> parsed == JObj(map[])
  {
    if parsed.JObj? && parsed.fields != map[] {
      var k :| k in parsed.fields;
      assert k in StringMap(parsed, py);
    }
    if !parsed.JObj? {
      assert "result" in StringMap(parsed, py);
    }
  }
}
