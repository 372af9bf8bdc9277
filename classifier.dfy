/** The `apiErrorHandler` tables: how each adapter turns an upstream failure
    into the SDK's canonical errors. The compatible, openai, hyperbolic and
    cloudflare adapters carry the same table; ai360 and xfyun have their own. */
module Classifier {
  import opened Canonical

  /** The table of the OpenAI-style adapters. The error's `code` is untyped
      JSON, so only a string code can equal a string constant. A request error
      takes its status from the API error value that was never filled in, so
      the status is always 0. */
  function OpenAiStyle(e: UpstreamError): (r: SdkError)
  {
    match e
    case ApiFailure(status, code, _) =>
      if status == 400 && code == StrCode("context_length_exceeded") then ContextLengthExceeded
      else if status == 401 && code == StrCode("invalid_api_key") then InvalidApiKey
      else if status == 404 then ModelNotFound
      else if status == 429 && code == StrCode("insufficient_quota") then InsufficientQuota
      else Raw(e)
    case RequestFailure(_, cause) => RequestError(0, cause)
    case TransportFailure(_) => Raw(e)
  }

  /** The ai360 table: numeric-looking string codes, two codes for quota, and
      a 429 code that means the context is too long. */
  function Ai360Style(e: UpstreamError): (r: SdkError)
  {
    match e
    case ApiFailure(status, code, _) =>
      if status == 400 && code == StrCode("1001") then ContextLengthExceeded
      else if status == 401 && code == StrCode("1002") then InvalidApiKey
      else if status == 401 && (code == StrCode("1004") || code == StrCode("1006")) then InsufficientQuota
      else if status == 404 then ModelNotFound
      else if status == 429 && code == StrCode("1005") then ContextLengthExceeded
      else Raw(e)
    case RequestFailure(_, cause) => RequestError(0, cause)
    case TransportFailure(_) => Raw(e)
  }

  /** The xfyun table, applied to a frame whose header code is not 0: two
      codes mean the context is too long, every other code becomes an API
      error with status 500 carrying the code and the encoded frame. */
  function XfyunStyle(code: int, frameJson: string): (r: SdkError)
  {
    if code == 10163 || code == 10907 then ContextLengthExceeded
    else ApiError(500, code, frameJson)
  }

  /** Each canonical error of the OpenAI-style table arises from exactly one
      (status, code) rule; everything else passes through unchanged, and a
      request error always gets status 0 whatever status it carried. */
  lemma OpenAiStyleTable(e: UpstreamError)
    ensures OpenAiStyle(e) == ContextLengthExceeded <==>
            e.ApiFailure? && e.httpStatus == 400 && e.code == StrCode("context_length_exceeded")
    ensures OpenAiStyle(e) == InvalidApiKey <==>
            e.ApiFailure? && e.httpStatus == 401 && e.code == StrCode("invalid_api_key")
    ensures OpenAiStyle(e) == ModelNotFound <==> e.ApiFailure? && e.httpStatus == 404
    ensures OpenAiStyle(e) == InsufficientQuota <==>
            e.ApiFailure? && e.httpStatus == 429 && e.code == StrCode("insufficient_quota")
    ensures e.RequestFailure? <==> OpenAiStyle(e).RequestError?
    ensures e.RequestFailure? ==> OpenAiStyle(e) == RequestError(0, e.cause)
    ensures OpenAiStyle(e).Raw? ==> OpenAiStyle(e) == Raw(e) && !e.RequestFailure?
    ensures OpenAiStyle(e).RequestError? ==> OpenAiStyle(e).status == 0
  {
  }

  /** The ai360 table rule by rule: both 400/1001 and 429/1005 mean the
      context is too long, 401 with 1004 or 1006 means no quota, and the rest
      passes through unchanged. */
  lemma Ai360StyleTable(e: UpstreamError)
    ensures Ai360Style(e) == ContextLengthExceeded <==>
            e.ApiFailure? && ((e.httpStatus == 400 && e.code == StrCode("1001")) ||
                              (e.httpStatus == 429 && e.code == StrCode("1005")))
    ensures Ai360Style(e) == InvalidApiKey <==>
            e.ApiFailure? && e.httpStatus == 401 && e.code == StrCode("1002")
    ensures Ai360Style(e) == InsufficientQuota <==>
            e.ApiFailure? && e.httpStatus == 401 && (e.code == StrCode("1004") || e.code == StrCode("1006"))
    ensures Ai360Style(e) == ModelNotFound <==> e.ApiFailure? && e.httpStatus == 404
    ensures e.RequestFailure? <==> Ai360Style(e).RequestError?
    ensures e.RequestFailure? ==> Ai360Style(e) == RequestError(0, e.cause)
    ensures Ai360Style(e).Raw? ==> Ai360Style(e) == Raw(e) && !e.RequestFailure?
  {
  }

  /** The classification depends on the status and the code only, never on
      the provider's message. */
  lemma ClassifiersIgnoreMessage(status: int, code: ErrorCode, m1: string, m2: string)
    ensures OpenAiStyle(ApiFailure(status, code, m1)).Raw? == OpenAiStyle(ApiFailure(status, code, m2)).Raw?
    ensures !OpenAiStyle(ApiFailure(status, code, m1)).Raw? ==>
            OpenAiStyle(ApiFailure(status, code, m1)) == OpenAiStyle(ApiFailure(status, code, m2))
    ensures Ai360Style(ApiFailure(status, code, m1)).Raw? == Ai360Style(ApiFailure(status, code, m2)).Raw?
    ensures !Ai360Style(ApiFailure(status, code, m1)).Raw? ==>
            Ai360Style(ApiFailure(status, code, m1)) == Ai360Style(ApiFailure(status, code, m2))
  {
  }

  /** A numeric code never matches a string constant: apart from a 404, both
      tables hand such an error back unchanged. */
  lemma NumericCodesPassThrough(status: int, n: int, message: string)
    ensures var e := ApiFailure(status, NumCode(n), message);
            OpenAiStyle(e) == (if status == 404 then ModelNotFound else Raw(e)) &&
            Ai360Style(e) == (if status == 404 then ModelNotFound else Raw(e))
  {
  }

  /** The two tables disagree on the codes each provider uses: ai360's codes
      pass through the OpenAI-style table, and OpenAI's codes pass through
      ai360's. */
  lemma TablesDiffer()
    ensures OpenAiStyle(ApiFailure(400, StrCode("1001"), "")) == Raw(ApiFailure(400, StrCode("1001"), ""))
    ensures Ai360Style(ApiFailure(400, StrCode("1001"), "")) == ContextLengthExceeded
    ensures Ai360Style(ApiFailure(400, StrCode("context_length_exceeded"), "")) ==
            Raw(ApiFailure(400, StrCode("context_length_exceeded"), ""))
    ensures OpenAiStyle(ApiFailure(429, StrCode("1005"), "")) == Raw(ApiFailure(429, StrCode("1005"), ""))
    ensures Ai360Style(ApiFailure(429, StrCode("1005"), "")) == ContextLengthExceeded
  {
  }

  /** xfyun never passes an error through: a non-zero code is either the
      context-length error or an API error with status 500 and that code. */
  lemma XfyunStyleTable(code: int, frameJson: string)
    ensures XfyunStyle(code, frameJson) == ContextLengthExceeded <==> code == 10163 || code == 10907
    ensures XfyunStyle(code, frameJson) != ContextLengthExceeded ==>
            XfyunStyle(code, frameJson) == ApiError(500, code, frameJson)
    ensures !XfyunStyle(code, frameJson).Raw? && !XfyunStyle(code, frameJson).RequestError?
  {
  }
}
