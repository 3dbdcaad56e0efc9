# contractAI response normalisation and presentation, in Dafny

This project models how contractAI (LegalEase AI) turns the loosely typed
answer of the upstream Airia analysis pipeline into what the user sees.

- **Back ends.** Three back ends receive the decoded upstream payload.
  - The Express handler (`server.js`) and the Flask handler (`app.py`) decide
    between two shapes: a JSON string under `result`, or a JSON string at
    `output[0].content[0].text`. They reply with the decoded object, or with
    500 and `{error}`.
  - The gRPC servicer (`grpc_server.py`) runs the same shape test as the Flask
    handler. It keeps a `result` string that does not decode, flattens the
    decoded value into a `map<string, string>`, and maps every exception to
    status INTERNAL with `str(err)` as details.
- **Browser UI** (`ui/index.js`):
  - the run guard;
  - the request construction;
  - the completion callback;
  - `renderResults`, which resolves the display cards from the map entries:
    the `analysis` entry or the raw entries, the alias chains of the list
    cards, "N/A" by truthiness, and the score text.

The language runtimes are modelled explicitly:
- Python's `in`, `len`, indexing, `json.loads` and `str`, with the
  exceptions each one raises;
- JavaScript truthiness, property access and optional chaining, `String(v)`,
  `trim`, `split`, and the TypeErrors V8 throws.

Module layout:

| file | module | what it holds |
|---|---|---|
| `json_value.dfy` | `JsonValue` | JSON values, `Option`/`Result`, decimal digits |
| `js_semantics.dfy` | `JsSemantics` | JavaScript semantics used by `server.js` and the UI |
| `py_semantics.dfy` | `PySemantics` | Python semantics used by `app.py` and `grpc_server.py` |
| `airia.dfy` | `Airia` | payload shapes, the fixed error message, HTTP replies |
| `py_shape.dfy` | `PyShape` | the shape test shared by `app.py` and `grpc_server.py` |
| `flask_app.dfy` | `FlaskApp` | `app.py` `/analyze` after the upstream call |
| `express_server.dfy` | `ExpressServer` | `server.js` `/analyze` after the upstream call |
| `rpc.dfy` | `Rpc` | the `Analyze` messages and status codes |
| `grpc_server.dfy` | `GrpcServer` | the servicer, its context, the map flattening |
| `presenter.dfy` | `Presenter` | `renderResults` and `ServiceOutput` |
| `service_ui.dfy` | `ServiceUi` | the component's state and its handlers |
| `pipeline.dfy` | `Pipeline` | servicer-to-screen scenarios and back-end comparisons |

Crashes in the source are modelled as written:
- `Object.keys(null)` when `analysis` decodes to `null`;
- `.map` on a string where a list is expected, which is what the gRPC
  flattening produces for every decoded list.

Both are `Crash` views, and lemmas show the inputs that reach them.

Behaviours of the code worth knowing, each shown by a lemma:
- **Re-submission while busy.** Ctrl+Enter submits again while a request is
  pending; only the button is disabled
  (`ServiceUi.ShortcutResubmitsWhileLoading`).
- **Undecodable `result` string.** `app.py` answers 500; so does `server.js`
  for a non-empty string.
  `grpc_server.py` serves the raw string as the entry `result`
  (`GrpcServer.StringResultIsServed`).
- **Empty `result` string.** `server.js` treats it as absent and tries the
  nested shape. `app.py` treats it as case 1
  (`Pipeline.EmptyResultDiverges`).
- **`output` as an object keyed "0".** `server.js` reaches the text through
  optional chaining on `[0]`; `app.py` requires lists and finds no shape
  (`Pipeline.ZeroKeyedOutputDiverges`). Likewise a `content` object keyed
  "0": `server.js` takes case 2, `app.py` raises `KeyError(0)` and answers 500
  (`Pipeline.ZeroKeyedContentDiverges`).
- **Fallbacks.** These apply by truthiness, not absence: an empty topic shows
  "N/A", but a score of 0 shows "0 / 100". An empty list card shows its
  placeholder item, not an empty list (`Pipeline.NdaScenario`).
- **The map-entry shape and "No Data".** These are handled by the UI
  (`renderResults`), not by a back end.

## Model

| member | source | states |
|---|---|---|
| `JsonValue.Digits` | grpc_server.py:77 | the decimal text of a number (part of `str(v)`) is non-empty, all digits, with a leading zero only for 0 |
| `JsSemantics.TrimStart` | ui/index.js:23 | the result is a suffix of the input, every removed character is whitespace, and the result does not start with whitespace |
| `JsSemantics.TrimEnd` | ui/index.js:23 | the result is a prefix of the input, every removed character is whitespace, and the result does not end with whitespace |
| `JsSemantics.Trim` | ui/index.js:23 | `trim` is empty exactly when the text is all whitespace, and otherwise starts and ends with a non-whitespace character |
| `JsSemantics.TrimIdempotent` | ui/index.js:48 | trimming the already trimmed request text changes nothing |
| `JsSemantics.Split` | ui/index.js:137 | `split` always yields at least one piece |
| `JsSemantics.SplitCount` | ui/index.js:137 | `split` yields one piece more than there are separators |
| `JsSemantics.SplitPiecesFree` | ui/index.js:137 | no piece of `split` contains the separator |
| `JsSemantics.JoinSplit` | ui/index.js:137 | joining the pieces with the separator gives back the text |
| `PyShape.StringResultOf` | app.py:47 | case 1 of the shared Python test: the `result` str of a dict; none when `result` is absent or not a str; the TypeError of `in` on a non-container, or of `data["result"]` on a list or str that contains "result"; characterised by `PyShape.StringResultChosenIff` |
| `PyShape.NestedTextOf` | app.py:51-58 | case 2 of the shared Python test, each of its six conjuncts with Python's `in`, `len` and `[...]`, and the TypeError or KeyError they raise; characterised by `PyShape.NestedContentChosenIff` |
| `PyShape.Classify` | app.py:47-62 | the if/elif/else chain shared by app.py and grpc_server.py:52-70: case 1, then case 2, then no shape |
| `PyShape.StringResultChosenIff` | app.py:47-48 | case 1 is chosen exactly when the payload is a dict whose `result` is a string, whatever else it holds |
| `PyShape.NestedContentChosenIff` | app.py:51-59 | case 2 is chosen exactly when case 1 is not and the payload reaches the text along `output[0].content[0].text` through dicts and lists |
| `PyShape.NestedTextShape` | grpc_server.py:59-67 | whenever the case-2 test yields a text, the path to it consists of dicts and lists |
| `PyShape.UnknownKeysAreNoShape` | app.py:61-62 | a dict with neither `result` nor `output` is of no known shape |
| `FlaskApp.Parsed` | app.py:44-62 | the value of `parsed`: `json.loads` of the case-1 or case-2 text, or the exception raised on the way |
| `FlaskApp.Analyze` | app.py:44-68 | the reply: 200 with `parsed`, or 500 with `str(err)` of any exception |
| `FlaskApp.StringResultDecides` | app.py:47-48 | a string `result` alone decides the reply: 200 with its decoding, or 500 with the decoder's message |
| `FlaskApp.EmptyResultFails` | app.py:47-48 | an empty `result` string is still case 1 and ends in the 500 of a decoding error |
| `FlaskApp.NestedTextDecides` | app.py:51-59 | with a string at the nested path, the reply is 200 with its decoding or 500 with the decoder's message |
| `FlaskApp.NestedNonStringFails` | app.py:59 | a nested text that is not a string makes `json.loads` raise a TypeError, answered with 500 |
| `FlaskApp.NoShapeFails` | app.py:61-68 | a payload of no known shape gets 500 with "Unrecognized Airia API response format" |
| `FlaskApp.SuccessIsDecodedText` | app.py:64 | a 200 body is exactly the decoding of the recognised string, unchanged |
| `ExpressServer.NestedText` | server.js:48 | `data.output?.[0]?.content?.[0]?.text` by optional chaining |
| `ExpressServer.Classify` | server.js:43-52 | which branch the truthiness tests take, or the TypeError of reading `result` off `null` |
| `ExpressServer.Analyze` | server.js:41-57 | the reply: 200 with the `JSON.parse` result, or 500 with the error's message |
| `ExpressServer.StringResultChosenIff` | server.js:44-45 | case 1 is taken exactly when `result` holds a non-empty string |
| `ExpressServer.EmptyResultFallsThrough` | server.js:44 | an empty `result` string is handled as if `result` were missing |
| `ExpressServer.NestedTextChosen` | server.js:48-49 | along objects and arrays, case 2 is taken exactly when the nested text is truthy; a falsy text is an unknown shape |
| `ExpressServer.ParseErrorIs500` | server.js:45-57 | a `JSON.parse` error in either case is a 500 carrying its message |
| `ExpressServer.NoShapeFails` | server.js:50-57 | neither shape gives 500 with the fixed message |
| `ExpressServer.NullPayloadFails` | server.js:44-57 | a `null` payload fails on reading `result`, with V8's message |
| `ExpressServer.SuccessIsDecodedText` | server.js:54 | a 200 body is exactly the parse of the recognised text |
| `GrpcServer.StringMap` | grpc_server.py:74-80 | the `map<string,string>` of a parsed value: `str(k)` to `str(v)` for a dict, `{"result": str(parsed)}` otherwise; `GrpcServer.ToStringMap` is its loop |
| `GrpcServer.Normalized` | grpc_server.py:49-80 | the servicer's outcome: served with the flattened map, or aborted with the exception; case 1 swallows a JSONDecodeError |
| `GrpcServer.ServicerContext.constructor` | grpc_server.py:88-89 | a fresh context holds status OK and no details |
| `GrpcServer.ServicerContext.SetDetails` | grpc_server.py:88 | records the details and nothing else |
| `GrpcServer.ServicerContext.SetCode` | grpc_server.py:89 | records the status code and nothing else |
| `GrpcServer.ToStringMap` | grpc_server.py:74-80 | the loop gives a dict's keys exactly, each with `str` of its value, and anything else as the single entry `result` |
| `GrpcServer.Abort` | grpc_server.py:86-90 | sets INTERNAL and `str(err)` and answers an empty response |
| `GrpcServer.Analyze` | grpc_server.py:49-90 | on success the response carries the flattened map and the context is untouched; on any exception the context holds INTERNAL and `str(err)` and the response is empty |
| `GrpcServer.StringResultIsServed` | grpc_server.py:52-56 | a string `result` is always served; one that does not decode becomes exactly `{"result": s}` |
| `GrpcServer.NestedDecodeErrorAborts` | grpc_server.py:67 | a case-2 text that does not decode aborts with the decoder's error |
| `GrpcServer.NoShapeAborts` | grpc_server.py:69-70 | neither shape aborts with the fixed message as details |
| `GrpcServer.DictKeepsKeys` | grpc_server.py:75-77 | a decoded dict keeps exactly its keys, each with `str` of its value |
| `GrpcServer.OtherIsSingleResult` | grpc_server.py:78-80 | anything but a dict becomes the single key `result` |
| `GrpcServer.EmptyOnlyForEmptyDict` | grpc_server.py:74-80 | the map is empty exactly when the decoded value is an empty dict |
| `Presenter.ParsedAnalysis` | ui/index.js:106-112 | `parsedData`: `JSON.parse` of a truthy `analysis` entry, `{}` when it is absent, empty or does not parse |
| `Presenter.AnalysisData` | ui/index.js:106-115 | `analysisData`: the parsed value when it has keys, else the raw entries; `Object.keys(null)` throws |
| `Presenter.ListItems` | ui/index.js:132-142 | one list card (also lines 149-159 and 172-178): the array, the lines of the alias, the placeholder, or the `.map`/`.split` TypeError |
| `Presenter.ScoreText` | ui/index.js:170 | the score text: "N/A" when undefined, else `String(score)` and " / 100" |
| `Presenter.Fields` | ui/index.js:117-182 | every card of `analysisData` in JSX order, or the first TypeError |
| `Presenter.Rendered` | ui/index.js:75-183 | what `renderResults` shows: the error box, the warning box, the cards or the crash |
| `Presenter.ServiceOutput` | ui/index.js:221-248 | the output section: waiting text, the stored error, or the rendered response |
| `Presenter.CopyEntries` | ui/index.js:100-103 | the copy loop gives `resultObj` exactly the map's entries |
| `Presenter.ParseAnalysis` | ui/index.js:106-112 | `parsedData` is the decoded `analysis` entry when it is non-empty and decodes, `{}` otherwise |
| `Presenter.RenderResults` | ui/index.js:75-183 | `renderResults` gives the view that `Rendered` specifies |
| `Presenter.MissingMessageShowsError` | ui/index.js:76-85 | no message, or one without `getResult`, shows "No valid response received from the server." |
| `Presenter.EmptyMapShowsNoData` | ui/index.js:87-97 | an unset result or an empty data map shows "No analysis data available." |
| `Presenter.AnalysisDataChoice` | ui/index.js:106-115 | cards come from the raw entries when `analysis` is absent, empty, undecodable or decodes to a keyless value, from the decoded value when it has keys, and a decoded `null` throws |
| `Presenter.ListItemsChain` | ui/index.js:132-142 | a list card takes a value with a positive `length` (an array; anything else throws at `.map`), else the lines of a truthy alias (a string; anything else throws at `.split`), else its placeholder |
| `Presenter.StringListThrows` | ui/index.js:132-133 | a non-empty string where a list is expected has no `.map`: rendering throws |
| `Presenter.DifferencesStringThrows` | ui/index.js:129-135 | a non-empty string under `differences` makes the whole results grid throw |
| `Presenter.LinesOfText` | ui/index.js:136-139 | an alias text with k line breaks gives k + 1 items, which join back to the text |
| `Presenter.TextCardsUseTruthiness` | ui/index.js:121-126 | topic, summary and suggested text show a truthy value as is, fall through on a falsy one (to `suggested_text`, then "N/A") |
| `Presenter.ScoreNotAvailableIffUndefined` | ui/index.js:170 | the score shows "N/A" exactly when it is undefined; a score of 0 shows "0 / 100" |
| `Presenter.NoFieldsShowsFallbacks` | ui/index.js:117-182 | an object with none of the card names shows every fallback |
| `Presenter.DifferencesStringSplits` | ui/index.js:136-139 | an object holding only `differences_string = "a\nb"` shows the differences "a" and "b" |
| `Presenter.RawEntriesRendered` | ui/index.js:114-115 | without an `analysis` entry the cards are read from the raw map entries |
| `Presenter.NullAnalysisThrows` | ui/index.js:115 | an `analysis` entry that decodes to `null` throws in `Object.keys` instead of falling back |
| `ServiceUi.AllowedToRun` | ui/index.js:23 | `!!text.trim()`; characterised by `ServiceUi.AllowedToRunIff` |
| `ServiceUi.Submitted` | ui/index.js:40-62 | the state after `submitAction`: unchanged for a blank text, else the trimmed text sent with `loading` set, or the client error shown |
| `ServiceUi.KeyPressed` | ui/index.js:64-69 | the state after a key: Ctrl+Enter or Cmd+Enter on a text that may run submits, any other key changes nothing |
| `ServiceUi.Completed` | ui/index.js:31-37 | the stored output: "Error: " and the status message for a non-zero status, else the response |
| `ServiceUi.Ended` | ui/index.js:25-38 | the state after `onActionEnd`: `loading` cleared and the completed output stored |
| `ServiceUi.SubmitEnabled` | ui/index.js:208 | the button is enabled when the text may run and nothing is loading |
| `ServiceUi.Shown` | ui/index.js:259 | the input form while the run is not complete, the output section afterwards |
| `ServiceUi.ServiceUI.constructor` | ui/index.js:18-20 | the component starts with no output, not loading, empty text |
| `ServiceUi.ServiceUI.HandleTextChange` | ui/index.js:71-73 | the new text replaces the old one, and nothing else changes |
| `ServiceUi.ServiceUI.SubmitAction` | ui/index.js:40-62 | the state after submitting is the `Submitted` transition of the state before |
| `ServiceUi.ServiceUI.HandleKeyPress` | ui/index.js:64-69 | the state after a key press is the `KeyPressed` transition of the state before |
| `ServiceUi.ServiceUI.OnActionEnd` | ui/index.js:25-38 | the state after a response is the `Ended` transition of the state before |
| `ServiceUi.AllowedToRunIff` | ui/index.js:23 | a text may run exactly when it holds a non-whitespace character |
| `ServiceUi.InitialState` | ui/index.js:18-20 | the initial state has sent nothing, holds no output and offers a disabled button |
| `ServiceUi.BlankSubmitChangesNothing` | ui/index.js:41 | submitting an all-whitespace text changes nothing |
| `ServiceUi.SubmitSendsTrimmedText` | ui/index.js:43-54 | an accepted submission sends the trimmed text, sets `loading`, keeps the output, and the text sent is non-empty and unpadded |
| `ServiceUi.ClientErrorShown` | ui/index.js:57-61 | a client error sends nothing, clears `loading` and shows "Client error: " with the message |
| `ServiceUi.AppendKeepsTrimmed` | ui/index.js:48 | appending a trimmed request to trimmed requests keeps them all trimmed |
| `ServiceUi.TransitionsKeepValid` | ui/index.js:25-73 | no handler ever sends an empty or untrimmed text |
| `ServiceUi.OtherKeysChangeNothing` | ui/index.js:64-69 | only Ctrl+Enter or Cmd+Enter reacts |
| `ServiceUi.ShortcutResubmitsWhileLoading` | ui/index.js:64-69 | while a request is pending the button is disabled, yet Ctrl+Enter sends the text again |
| `ServiceUi.EndedShows` | ui/index.js:25-38 | a response clears `loading`; a non-zero status shows "Error: " and the status message, status 0 shows the rendered response |
| `ServiceUi.ScreensOfARun` | ui/index.js:203-259 | the output section waits before any response; a pending request shows the analyzing form with the button disabled; the button is enabled again after the call; a failed call shows "Error: " and the status message |
| `ServiceUi.ResubmitWhileLoading` | ui/index.js:64-69 | typing a clause and pressing the shortcut twice sends it twice |
| `Pipeline.ServedIsRendered` | grpc_server.py:82-84 | a served map reaches `renderResults` as the response's data map |
| `Pipeline.AbortShowsStatusMessage` | grpc_server.py:86-90 | any exception in the servicer reaches the user as "Error: " and its text |
| `Pipeline.UnknownShapeScenario` | app.py:61-68 | `{foo: 1}` gets 500 with the fixed message from both HTTP back ends and shows it after "Error: " in the UI |
| `Pipeline.UndecodableResultShowsFallbacks` | grpc_server.py:53-56 | a `result` string that does not decode is served but shown as all fallbacks |
| `Pipeline.FlattenedListThrows` | grpc_server.py:75-77 | a decoded `differences` list arrives as Python's text of the list and makes rendering throw |
| `Pipeline.NdaScenario` | app.py:47-64 | the NDA payload is returned decoded, and the UI shows its topic and summary with every other card at its fallback |
| `Pipeline.NdaCards` | ui/index.js:117-182 | the cards of an object holding only topic and summary |
| `Pipeline.AppAndServicerAgree` | grpc_server.py:52-70 | `app.py` and the servicer agree on every payload except a `result` string that does not decode |
| `Pipeline.ServerAndAppAgreeOnStringResult` | server.js:44-45 | on a non-empty `result` string the Express and Flask replies are equal when their decoders agree |
| `Pipeline.EmptyResultDiverges` | server.js:44-49 | an empty `result` with a nested text: Express succeeds via case 2, Flask fails in case 1, the servicer serves the empty string |
| `Pipeline.FormatsAreInterchangeable` | app.py:46-59 | both upstream formats with the same text give the same HTTP reply (for Express, a non-empty text); the servicer agrees only when the text decodes |
| `Pipeline.ZeroKeyedOutputDiverges` | server.js:43-52 | an `output` object keyed "0" is case 2 for server.js and no shape for app.py |
| `Pipeline.ZeroKeyedContentDiverges` | app.py:55-57 | a `content` object keyed "0" is case 2 for server.js and a `KeyError(0)` for app.py |

## Left out

- The HTTP listener, CORS, body parsing and environment configuration of `server.js` and `app.py`, and the upstream call itself (`fetch`/`requests`, the API key, the 30-second timeout). The decoded upstream payload is an input.
- The decoding of the upstream HTTP body in `grpc_server.py` (lines 39-43), including the `ValueError` re-raised for a non-JSON body. The payload arrives decoded.
- JSON decoding and encoding. The decoders `JSON.parse` and `json.loads` are a parameter (`Parser`), so every property holds for any decoder. Python's `repr` of lists and dicts and the text of its built-in TypeError and KeyError are parameters (`PyLib`) as well.
- Non-integer numbers, and JavaScript's exponent notation for numbers of magnitude 1e21 or more. JSON numbers are integers here.
- The gRPC thread pool, `serve()`, `grpc_client.py`, the gRPC-web transport and the protobuf encoding. The UI receives the servicer's answer as a value. The message of a failed call is not modelled, because the UI ignores it.
- `JsSemantics.IsPositive`: `x.length > 0` is decided only for numbers and booleans. A `length` property holding a string or an array counts as not positive, whereas JavaScript would convert it to a number.
- React's rendering of the card values: an object placed in the JSX would make React throw. Markup, CSS, the button label and the `isComplete` prop's source are also out.
- Logging (`console.log`, `print`). Logging has no effect on results.
- `__proto__` and other keys that JavaScript objects treat specially. A JSON object is a plain map here.
