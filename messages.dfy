/**
 * The values that cross the service's boundary: the incoming research request, the envelope
 * posted to the generative-language API, and the decoded shape of its reply.
 */
module Messages {
  import opened Wrappers

  /** An incoming request: the operation name and the text it applies to. */
  datatype ResearchRequest = ResearchRequest(operation: string, content: string)

  /** `{"text": ...}` inside a request. */
  datatype RequestPart = RequestPart(text: string)

  /** `{"parts": [...]}` inside a request. */
  datatype RequestContent = RequestContent(parts: seq<RequestPart>)

  /** The posted body `{"contents": [...]}`. */
  datatype RequestBody = RequestBody(contents: seq<RequestContent>)

  /*
   * The decoded reply. Every level is a nullable reference in the source, so every field and
   * every list element is an Option: `None` (absent or null) stays distinct from `Some([])`.
   */

  /** One part of a candidate's content; its text may be null. */
  datatype Part = Part(text: Option<string>)

  /** A candidate's content; its list of parts may be absent, empty, or hold nulls. */
  datatype Content = Content(parts: Option<seq<Option<Part>>>)

  /** One generated option; its content may be absent. */
  datatype Candidate = Candidate(content: Option<Content>)

  /** The decoded top-level reply; its list of candidates may be absent, empty, or hold nulls. */
  datatype GeminiResponse = GeminiResponse(candidates: Option<seq<Option<Candidate>>>)

  /**
   * What the JSON decoder makes of the raw reply body: a failure with the exception's message
   * (which may itself be null), or a decoded reply (null when the body is the JSON literal null).
   */
  datatype Decoding = DecodeFailed(message: Option<string>) | Decoded(response: Option<GeminiResponse>)

  /** What Java's string concatenation appends for a possibly-null string: its characters, or "null". */
  function Rendered(s: Option<string>): string
  {
    match s
    case None => "null"
    case Some(v) => v
  }
}
