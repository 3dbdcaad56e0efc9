/** What the three back ends share: the payload shapes of the upstream
    pipeline, the error text for a payload of no known shape, and the HTTP
    reply of the two HTTP back ends. */
module Airia {
  import opened JsonValue

  const UnrecognizedFormat := "Unrecognized Airia API response format"

  /** The shape a back end recognised in the upstream payload: the string
      under `result`, the value at `output[0].content[0].text`, or neither. */
  datatype Shape = StringResult(result: string) | NestedContent(text: Json) | NoShape

  /** An HTTP reply: status code and JSON body. */
  datatype Reply = Reply(status: int, body: Json)

  /** The reply of both HTTP handlers' `catch`/`except`: 500 with `{error: message}`. */
  function ErrorReply(message: string): Reply {
    Reply(500, JObj(map["error" := JStr(message)]))
  }

  /** `payload["result"]` holds a string. */
  predicate HasStringResult(payload: Json) {
    payload.JObj? && "result" in payload.fields && payload.fields["result"].JStr?
  }

  /** `payload` reaches `text` along `output[0].content[0].text` through
      objects and arrays only. */
  predicate NestedAt(payload: Json, text: Json) {
    && payload.JObj? && "output" in payload.fields
    && var output := payload.fields["output"];
    && output.JArr? && |output.items| > 0
    && var first := output.items[0];
    && first.JObj? && "content" in first.fields
    && var content := first.fields["content"];
    && content.JArr? && |content.items| > 0
    && var block := content.items[0];
    && block.JObj? && "text" in block.fields
    && block.fields["text"] == text
  }

  /** The newer upstream format: `{"result": text}`. */
  function StringResultPayload(text: string): Json {
    JObj(map["result" := JStr(text)])
  }

  /** The older upstream format: `{"output": [{"content": [{"text": text}]}]}`. */
  function NestedPayload(text: Json): Json {
    JObj(map["output" := JArr([JObj(map["content" := JArr([JObj(map["text" := text])])])])])
  }
}
