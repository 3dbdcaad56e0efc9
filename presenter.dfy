/** `renderResults` and `ServiceOutput` of ui/index.js: from the RPC response
    to the display fields, with the fallback for a missing or unusable
    `analysis` entry, the alias chains of the list fields, truthiness-based
    "N/A" defaults and the score text. Markup and styling are not modelled;
    a view records which box is shown and the values placed in it. */
module Presenter {
  import opened JsonValue
  import opened JsSemantics
  import opened Rpc

  const NoValidResponseText := "No valid response received from the server."
  const NoAnalysisDataText := "No analysis data available."
  const NotAvailable := "N/A"
  const NoDifferencesText := "No differences detected"
  const NoRisksText := "No significant risks identified"
  const NoSignalsText := "No fake contract signals detected"

  /** The component's `output` state: null, `{error}`, or the whole response. */
  datatype Output = NoOutput | ErrorOutput(error: string) | ResponseOutput(response: UnaryOutput)

  /** The values placed in the result cards, in JSX order. A list holds the
      values of its `<li>` items. */
  datatype Display = Display(
    topic: Json,
    summary: Json,
    differences: seq<Json>,
    riskFlags: seq<Json>,
    suggestedText: Json,
    score: string,
    signals: seq<Json>)

  /** What the output section shows. `Crash` is a TypeError thrown while the
      JSX is built, which React reports instead of any box. */
  datatype View =
    | WaitingBox
    | ErrorBox(message: string)
    | WarningBox(message: string)
    | Results(display: Display)
    | Crash(fault: JsFault)

  /** `resultObj`: the entries of the data map as an object of strings. */
  function ObjectOf(m: map<string, string>): Json {
    JObj(map k | k in m :: JStr(m[k]))
  }

  /** `Object.keys(v).length` for a value that is not null. */
  function KeyCount(v: Json): nat {
    match v
    case JObj(f) => |f|
    case JArr(xs) => |xs|
    case JStr(s) => |s|
    case _ => 0
  }

  /** `parsedData` after lines 106-112: the decoded `analysis` entry when it
      is non-empty and decodes, `{}` otherwise. */
  function ParsedAnalysis(resultObj: map<string, string>, parse: Parser): Json {
    if "analysis" in resultObj && resultObj["analysis"] != "" then
      match parse(resultObj["analysis"])
      case Success(j) => j
      case Failure(_) => JObj(map[])
    else JObj(map[])
  }

  /** Line 115: `analysisData`, or the TypeError of `Object.keys(null)`. */
  function AnalysisData(resultObj: map<string, string>, parse: Parser): Result<Json, JsFault> {
    var parsedData := ParsedAnalysis(resultObj, parse);
    if parsedData.JNull? then Failure(KeysOfNull)
    else if KeyCount(parsedData) > 0 then Success(parsedData)
    else Success(ObjectOf(resultObj))
  }

  /** `v || fallback`. */
  function OrElse(v: Option<Json>, fallback: Json): Json {
    if Truthy(v) then v.value else fallback
  }

  /** The `<li>` values of `s.split('\n').map(...)`. */
  function Lines(s: string): seq<Json> {
    var parts := Split(s, '\n');
    seq(|parts|, i requires 0 <= i < |parts| => JStr(parts[i]))
  }

  /** A list card: `d[key]` when it is a non-empty list, else the lines of
      `d[alias]`, else the placeholder; `.map` on a non-empty value that is
      not an array, or `.split` on a truthy alias that is not a string, throws. */
  function ListItems(d: Json, key: string, alias: Option<string>, placeholder: string): Result<seq<Json>, JsFault> {
    var primary := Prop(d, key);
    if Truthy(primary) && IsPositive(Prop(primary.value, "length")) then
      if primary.value.JArr? then Success(primary.value.items)
      else Failure(NotAFunction("analysisData." + key + ".map"))
    else if alias.Some? && Truthy(Prop(d, alias.value)) then
      var text := Prop(d, alias.value).value;
      if text.JStr? then Success(Lines(text.s))
      else Failure(NotAFunction("analysisData." + alias.value + ".split"))
    else Success([JStr(placeholder)])
  }

  /** Line 170: the score card's text. */
  function ScoreText(score: Option<Json>): string {
    if score.None? then NotAvailable else ToJsString(score.value) + " / 100"
  }

  /** Lines 117-182: every card of `analysisData`, the first TypeError in JSX
      order otherwise. */
  function Fields(d: Json): Result<Display, JsFault> {
    var differences :- ListItems(d, "differences", Some("differences_string"), NoDifferencesText);
    var riskFlags :- ListItems(d, "risk_flags", Some("risk_analysis"), NoRisksText);
    var signals :- ListItems(d, "fake_contract_signals", None, NoSignalsText);
    Success(Display(
      OrElse(Prop(d, "topic"), JStr(NotAvailable)),
      OrElse(Prop(d, "summary"), JStr(NotAvailable)),
      differences,
      riskFlags,
      OrElse(Prop(d, "suggested_neutral_text"), OrElse(Prop(d, "suggested_text"), JStr(NotAvailable))),
      ScoreText(Prop(d, "fake_contract_score")),
      signals))
  }

  /** Lines 75-183 as a value. */
  function Rendered(data: UnaryOutput, parse: Parser): View {
    match data.message
    case None => ErrorBox(NoValidResponseText)
    case Some(Foreign) => ErrorBox(NoValidResponseText)
    case Some(Decoded(AnalyzeResponse(None))) => WarningBox(NoAnalysisDataText)
    case Some(Decoded(AnalyzeResponse(Some(result)))) =>
      if |result.data| == 0 then WarningBox(NoAnalysisDataText)
      else
        match AnalysisData(result.data, parse)
        case Failure(fault) => Crash(fault)
        case Success(d) =>
          match Fields(d)
          case Failure(fault) => Crash(fault)
          case Success(display) => Results(display)
  }

  /** Lines 100-103: `resultObj` filled entry by entry from the data map. */
  method CopyEntries(dataMap: map<string, string>) returns (resultObj: map<string, string>)
    ensures resultObj.Keys == dataMap.Keys
    ensures forall k :: k in resultObj ==> resultObj[k] == dataMap[k]
  {
    resultObj := map[];
    var pending := dataMap.Keys;
    while pending != {}
      invariant pending <= dataMap.Keys
      invariant resultObj.Keys == dataMap.Keys - pending
      invariant forall k :: k in resultObj ==> resultObj[k] == dataMap[k]
      decreases pending
    {
      var key :| key in pending;
      resultObj := resultObj[key := dataMap[key]];
      pending := pending - {key};
    }
  }

  /** Lines 106-112: the `try`/`catch` around `JSON.parse` of `analysis`. */
  method ParseAnalysis(resultObj: map<string, string>, parse: Parser) returns (parsedData: Json)
    ensures parsedData == ParsedAnalysis(resultObj, parse)
    ensures !("analysis" in resultObj && resultObj["analysis"] != "") ==> parsedData == JObj(map[])
  {
    parsedData := JObj(map[]);
    if "analysis" in resultObj && resultObj["analysis"] != "" {
      var attempt := parse(resultObj["analysis"]);
      if attempt.Success? {
        parsedData := attempt.value;
      } else {
        parsedData := JObj(map[]);
      }
    }
  }

  /** `renderResults`: copies the data map into `resultObj`, tries to decode
      `analysis`, and resolves the cards. */
  method RenderResults(data: UnaryOutput, parse: Parser) returns (view: View)
    ensures view == Rendered(data, parse)
  {
    if data.message.None? || data.message.value.Foreign? {
      return ErrorBox(NoValidResponseText);
    }
    var result := data.message.value.response.result;
    if result.None? || |result.value.data| == 0 {
      return WarningBox(NoAnalysisDataText);
    }
    var resultObj := CopyEntries(result.value.data);
    assert resultObj == result.value.data;
    var parsedData := ParseAnalysis(resultObj, parse);
    if parsedData.JNull? {
      return Crash(KeysOfNull);
    }
    var analysisData := if KeyCount(parsedData) > 0 then parsedData else ObjectOf(resultObj);
    var fields := Fields(analysisData);
    view := if fields.Success? then Results(fields.value) else Crash(fields.error);
  }

  /** `ServiceOutput` (lines 221-248): waiting text, the stored error, or the
      rendered response. An `{error: ""}` state has no `message`. */
  function ServiceOutput(output: Output, parse: Parser): View {
    match output
    case NoOutput => WaitingBox
    case ErrorOutput(e) => if e != "" then ErrorBox(e) else ErrorBox(NoValidResponseText)
    case ResponseOutput(response) => Rendered(response, parse)
  }

  /** No message, or a message without `getResult`: the fixed error text. */
  lemma MissingMessageShowsError(data: UnaryOutput, parse: Parser)
    requires data.message.None? || data.message == Some(Foreign)
    ensures Rendered(data, parse) == ErrorBox(NoValidResponseText)
  {
  }

  /** No result, or an empty data map: the fixed warning text. */
  lemma EmptyMapShowsNoData(data: UnaryOutput, parse: Parser)
    requires data.message.Some? && data.message.value.Decoded?
    requires var result := data.message.value.response.result;
             result.None? || result.value.data == map[]
    ensures Rendered(data, parse) == WarningBox(NoAnalysisDataText)
  {
  }

  /** The cards come from the raw entries when `analysis` is absent, empty,
      undecodable or decodes to a value without keys; from the decoded value
      when it has keys; and a decoded `null` throws. */
  lemma AnalysisDataChoice(m: map<string, string>, parse: Parser)
    ensures ("analysis" !in m || m["analysis"] == "" || parse(m["analysis"]).Failure?) ==>
              AnalysisData(m, parse) == Success(ObjectOf(m))
    ensures "analysis" in m && m["analysis"] != "" && parse(m["analysis"]).Success? ==>
              var j := parse(m["analysis"]).value;
              && (j.JNull? ==> AnalysisData(m, parse) == Failure(KeysOfNull))
              && (!j.JNull? && KeyCount(j) == 0 ==> AnalysisData(m, parse) == Success(ObjectOf(m)))
              && (KeyCount(j) > 0 ==> AnalysisData(m, parse) == Success(j))
  {
  }

  /** A list card resolves in order, first hit wins: a value with a positive
      `length` (an array, or else `.map` throws), then the lines of a truthy
      alias (a string, or else `.split` throws), then the placeholder. */
  lemma ListItemsChain(d: Json, key: string, alias: Option<string>, placeholder: string)
    ensures Prop(d, key).Some? && Prop(d, key).value.JArr? && |Prop(d, key).value.items| > 0 ==>
              ListItems(d, key, alias, placeholder) == Success(Prop(d, key).value.items)
    ensures Truthy(Prop(d, key)) && IsPositive(Prop(Prop(d, key).value, "length")) && !Prop(d, key).value.JArr? ==>
              ListItems(d, key, alias, placeholder) == Failure(NotAFunction("analysisData." + key + ".map"))
    ensures !(Truthy(Prop(d, key)) && IsPositive(Prop(Prop(d, key).value, "length"))) ==>
              && (alias.Some? && Truthy(Prop(d, alias.value)) && Prop(d, alias.value).value.JStr? ==>
                    ListItems(d, key, alias, placeholder) == Success(Lines(Prop(d, alias.value).value.s)))
              && (alias.Some? && Truthy(Prop(d, alias.value)) && !Prop(d, alias.value).value.JStr? ==>
                    ListItems(d, key, alias, placeholder) == Failure(NotAFunction("analysisData." + alias.value + ".split")))
              && (alias.None? || !Truthy(Prop(d, alias.value)) ==>
                    ListItems(d, key, alias, placeholder) == Success([JStr(placeholder)]))
  {
  }

  /** A non-empty string where a list is expected has no `.map`: rendering throws. */
  lemma StringListThrows(d: Json, key: string, alias: Option<string>, placeholder: string)
    requires Prop(d, key).Some? && Prop(d, key).value.JStr? && Prop(d, key).value.s != ""
    ensures ListItems(d, key, alias, placeholder) == Failure(NotAFunction("analysisData." + key + ".map"))
  {
  }

  /** A non-empty string under `differences` makes the whole card set throw. */
  lemma DifferencesStringThrows(d: Json)
    requires Prop(d, "differences").Some? && Prop(d, "differences").value.JStr?
    requires Prop(d, "differences").value.s != ""
    ensures Fields(d) == Failure(NotAFunction("analysisData.differences.map"))
  {
    StringListThrows(d, "differences", Some("differences_string"), NoDifferencesText);
    assert "analysisData." + "differences" + ".map" == "analysisData.differences.map";
  }

  /** An alias text with k line breaks gives k + 1 items, which join back to it. */
  lemma {:induction false} LinesOfText(s: string)
    ensures |Lines(s)| == Occurrences(s, '\n') + 1
    ensures Join(Split(s, '\n'), '\n') == s
    ensures forall i :: 0 <= i < |Lines(s)| ==> Lines(s)[i] == JStr(Split(s, '\n')[i])
  {
    SplitCount(s, '\n');
    JoinSplit(s, '\n');
  }

  /** The text cards use truthiness: a truthy value is shown as is; an empty
      or missing topic or summary shows "N/A"; an empty suggested text falls
      through to `suggested_text`, then to "N/A". */
  lemma TextCardsUseTruthiness(d: Json)
    requires Fields(d).Success?
    ensures Truthy(Prop(d, "topic")) ==> Fields(d).value.topic == Prop(d, "topic").value
    ensures !Truthy(Prop(d, "topic")) ==> Fields(d).value.topic == JStr(NotAvailable)
    ensures Truthy(Prop(d, "summary")) ==> Fields(d).value.summary == Prop(d, "summary").value
    ensures !Truthy(Prop(d, "summary")) ==> Fields(d).value.summary == JStr(NotAvailable)
    ensures Truthy(Prop(d, "suggested_neutral_text")) ==>
              Fields(d).value.suggestedText == Prop(d, "suggested_neutral_text").value
    ensures !Truthy(Prop(d, "suggested_neutral_text")) && Truthy(Prop(d, "suggested_text")) ==>
              Fields(d).value.suggestedText == Prop(d, "suggested_text").value
    ensures !Truthy(Prop(d, "suggested_neutral_text")) && !Truthy(Prop(d, "suggested_text")) ==>
              Fields(d).value.suggestedText == JStr(NotAvailable)
  {
  }

  /** The score shows "N/A" exactly when it is undefined; 0 shows as "0 / 100". */
  lemma ScoreNotAvailableIffUndefined(score: Option<Json>)
    ensures ScoreText(score) == NotAvailable <==> score.None?
    ensures score == Some(JNum(0)) ==> ScoreText(score) == "0 / 100"
  {
    if score.Some? {
      assert |ScoreText(score)| >= |" / 100"| > |NotAvailable|;
    }
  }

  /** An object with none of the card names shows every fallback. */
  lemma NoFieldsShowsFallbacks(d: Json)
    requires d.JObj?
    requires forall k :: k in d.fields ==>
               k !in {"topic", "summary", "differences", "differences_string", "risk_flags",
                      "risk_analysis", "suggested_neutral_text", "suggested_text",
                      "fake_contract_score", "fake_contract_signals"}
    ensures Fields(d) == Success(Display(
              JStr(NotAvailable), JStr(NotAvailable), [JStr(NoDifferencesText)], [JStr(NoRisksText)],
              JStr(NotAvailable), NotAvailable, [JStr(NoSignalsText)]))
  {
  }

  /** Only `differences_string = "a\nb"`: the differences are "a" and "b". */
  lemma DifferencesStringSplits()
    ensures Fields(JObj(map["differences_string" := JStr("a\nb")])).Success?
    ensures Fields(JObj(map["differences_string" := JStr("a\nb")])).value.differences == [JStr("a"), JStr("b")]
  {
    assert Split("", '\n') == [""];
    assert "b"[1..] == "" && "b"[0] == 'b';
    assert ['b'] + "" == "b";
    assert Split("b", '\n') == ["b"];
    assert "\nb"[1..] == "b";
    assert Split("\nb", '\n') == ["", "b"];
    assert "a\nb"[1..] == "\nb" && "a\nb"[0] == 'a';
    assert ['a'] + "" == "a";
    assert Split("a\nb", '\n') == [['a'] + Split("\nb", '\n')[0]] + Split("\nb", '\n')[1..];
    assert Split("a\nb", '\n') == ["a", "b"];
  }

  /** Without an `analysis` entry the cards are read from the raw entries. */
  lemma RawEntriesRendered(data: UnaryOutput, m: map<string, string>, parse: Parser)
    requires data.message == Some(Decoded(AnalyzeResponse(Some(AnalysisResult(m)))))
    requires m != map[] && "analysis" !in m
    ensures Fields(ObjectOf(m)).Success? ==> Rendered(data, parse) == Results(Fields(ObjectOf(m)).value)
    ensures Fields(ObjectOf(m)).Failure? ==> Rendered(data, parse) == Crash(Fields(ObjectOf(m)).error)
  {
    assert |m| > 0;
    AnalysisDataChoice(m, parse);
  }

  /** An `analysis` entry that decodes to `null` makes rendering throw
      instead of falling back to the raw entries. */
  lemma NullAnalysisThrows(data: UnaryOutput, parse: Parser)
    requires data.message.Some? && data.message.value.Decoded?
    requires data.message.value.response.result.Some?
    requires var m := data.message.value.response.result.value.data;
             "analysis" in m && m["analysis"] != "" && parse(m["analysis"]) == Success(JNull)
    ensures Rendered(data, parse) == Crash(KeysOfNull)
  {
  }
}
