/** The messages of the `Analyze` RPC as the servicer builds them and as the
    UI receives them in its `onEnd` callback. */
module Rpc {
  import opened JsonValue

  /** The two status codes the servicer uses. */
  datatype StatusCode = OK | INTERNAL {
    /** The numeric code of the gRPC protocol, as the UI sees it in `status`. */
    function Value(): int {
      match this
      case OK => 0
      case INTERNAL => 13
    }
  }

  /** `AnalysisResult { map<string, string> data }`. */
  datatype AnalysisResult = AnalysisResult(data: map<string, string>)

  /** `AnalyzeResponse { AnalysisResult result }`; `None` when unset. */
  datatype AnalyzeResponse = AnalyzeResponse(result: Option<AnalysisResult>)

  /** The `message` of a unary response: a decoded `AnalyzeResponse`, or some
      other object that has no `getResult` method. */
  datatype Message = Decoded(response: AnalyzeResponse) | Foreign

  /** What `onEnd` receives: `message` (`None` when null or undefined),
      `status` and `statusMessage`. */
  datatype UnaryOutput = UnaryOutput(message: Option<Message>, status: int, statusMessage: string)
}
