/** The canonical request/response shapes every adapter of the SDK shares:
    messages, streamed choices, usage, the per-event response record and the
    error taxonomy. Go's `interface{}` content becomes the closed `Content`
    type; Go's `error` values become `SdkError`. */
module Canonical {

  datatype Option<+T> = None | Some(value: T) {
    function GetOr(default: T): T {
      match this
      case Some(v) => v
      case None => default
    }
  }

  /** The result of Go code that may panic (an index or slice out of range, a
      nil dereference). A panic is an outcome of the source, so it is modelled
      rather than excluded by a precondition. */
  datatype Outcome<+T> = Ok(value: T) | Panic(reason: string)

  const RoleSystem: string := "system"
  const RoleUser: string := "user"
  const RoleAssistant: string := "assistant"

  /** The provider names callers select adapters with; matching is exact and
      case-sensitive. */
  const CorpOpenAi: string := "OpenAI"
  const CorpAzure: string := "Azure"
  const CorpBaidu: string := "Baidu"
  const CorpXfyun: string := "Xfyun"
  const CorpAliyun: string := "Aliyun"
  const CorpZhipuAi: string := "ZhipuAI"
  const CorpGoogle: string := "Google"
  const CorpDeepSeek: string := "DeepSeek"
  const Corp360Ai: string := "360AI"
  const CorpMidjourney: string := "Midjourney"
  const CorpAnthropic: string := "Anthropic"
  const CorpGcpClaude: string := "GCPClaude"
  const CorpAwsClaude: string := "AWSClaude"
  const CorpCloudflare: string := "Cloudflare"
  const CorpHyperbolic: string := "Hyperbolic"
  const CorpSiliconflow: string := "Siliconflow"
  const CorpGroq: string := "groq"

  /** The completion-id prefix the adapters put in front of provider ids. */
  const CompletionIdPrefix: string := "chatcmpl-"

  /** One element of a list-typed message content. `Unshaped` stands for a JSON
      element that is not an object, which the multi-part decoder rejects. */
  datatype Part = TextPart(text: string) | ImageUrlPart(url: string) | Unshaped(raw: string)

  /** A message's content as callers supply it: a string, a list of parts, or nil. */
  datatype Content = Text(text: string) | Parts(parts: seq<Part>) | Null

  datatype Message = Message(role: string, name: string, content: Content)

  /** Only the literal empty string counts as empty content. */
  predicate IsEmptyContent(c: Content) {
    c == Text("")
  }

  datatype FinishReason = Unset | Stop | Length | FunctionCall | ToolCalls | ContentFilter

  datatype Delta = Delta(role: string, content: string)

  datatype Choice = Choice(index: int, delta: Delta, finishReason: FinishReason)

  /** The choice the adapters synthesise when a finishing chunk has none. */
  const EmptyStopChoice: Choice := Choice(0, Delta("", ""), Stop)

  datatype Usage = Usage(promptTokens: int, completionTokens: int, totalTokens: int)

  /** The `code` of a provider error body is untyped JSON: a string, a number or absent. */
  datatype ErrorCode = StrCode(s: string) | NumCode(n: int) | NoCode

  /** Errors as the upstream OpenAI client library returns them. */
  datatype UpstreamError =
    | ApiFailure(httpStatus: int, code: ErrorCode, message: string)
    | RequestFailure(httpStatus: int, cause: string)
    | TransportFailure(message: string)

  /** Errors as the SDK hands them to its callers. */
  datatype SdkError =
    | ContextLengthExceeded
    | InvalidApiKey
    | InsufficientQuota
    | ModelNotFound
    | RequestError(status: int, cause: string)
    | ApiError(status: int, code: int, payload: string)
    | Raw(err: UpstreamError)
    | EndOfStream
    | Described(text: string)

  /** One response record: a whole non-streaming answer, or one event of a stream. */
  datatype Response = Response(
    id: string,
    choices: seq<Choice>,
    usage: Option<Usage>,
    connTime: int,
    duration: int,
    totalTime: int,
    error: Option<SdkError>)

  /** A content-free event that only carries timing and an error. */
  function ErrorEvent(e: SdkError, connTime: int, duration: int, totalTime: int): Response
  {
    Response("", [], None, connTime, duration, totalTime, Some(e))
  }
}
