/**
 * The decision logic of the research service: turning a request into a prompt, wrapping the
 * prompt in the provider's request envelope, and pulling the generated text out of the
 * decoded reply. The HTTP exchange itself is a parameter.
 */
module ResearchService {
  import opened Wrappers
  import opened Messages
  import Text

  /*
   * The two instructions, each written as its first word, the rest of its sentence and the
   * common ending; the pieces concatenate to the literal the service appends.
   */
  const InstructionEnd := ":\n\n"
  const SummarizeInstruction := "Provide"
    + " a clear and concise summary of the following text in a few sentences" + InstructionEnd
  const SuggestInstruction := "Based"
    + " on the following content: suggest related topics and further reading."
    + " Format the response with clear headings and bullet points" + InstructionEnd
  const UnknownOperationPrefix := "Unknown Operation: "
  const NoContent := "No content found in response"
  const ErrorParsingPrefix := "Error Parsing: "

  // ---------------------------------------------------------------------------------------
  // Prompt builder
  // ---------------------------------------------------------------------------------------

  /** The operations the service recognises. */
  datatype Operation = Summarize | Suggest

  /** The exact, case-sensitive name a request uses for an operation. */
  function OperationName(o: Operation): string
  {
    match o
    case Summarize => "summarize"
    case Suggest => "suggest"
  }

  /** The operation a request names, if any; the names are matched exactly. */
  function ParseOperation(name: string): (r: Option<Operation>)
    ensures r.Some? <==> name == "summarize" || name == "suggest"
    ensures r.Some? ==> OperationName(r.value) == name
  {
    if name == "summarize" then Some(Summarize)
    else if name == "suggest" then Some(Suggest)
    else None
  }

  /** Each operation's name is matched back to that operation. */
  lemma OperationNameRoundTrip(o: Operation)
    ensures ParseOperation(OperationName(o)) == Some(o)
  {
  }

  /** The fixed instruction placed before the content for each operation. */
  function Instruction(o: Operation): string
  {
    match o
    case Summarize => SummarizeInstruction
    case Suggest => SuggestInstruction
  }

  /**
   * The prompt built for a request, or the message of the exception thrown for an
   * unrecognised operation.
   */
  function Prompt(request: ResearchRequest): (r: Result<string, string>)
    ensures r.Success? <==> ParseOperation(request.operation).Some?
    ensures r.Failure? ==> r.error == UnknownOperationPrefix + request.operation
    ensures r.Success? ==>
      var instruction := Instruction(ParseOperation(request.operation).value);
      && |r.value| == |instruction| + |request.content|
      && r.value[..|instruction|] == instruction
      && r.value[|instruction|..] == request.content
  {
    match ParseOperation(request.operation)
    case None => Failure(UnknownOperationPrefix + request.operation)
    case Some(o) => Success(Instruction(o) + request.content)
  }

  /**
   * Builds the prompt in a buffer: the instruction for the operation is appended first, the
   * content second; an unrecognised operation fails before anything else is appended.
   */
  method BuildPrompt(request: ResearchRequest) returns (r: Result<string, string>)
    ensures r == Prompt(request)
  {
    var prompt := new Text.StringBuilder();
    if request.operation == "summarize" {
      prompt.Append(SummarizeInstruction);
    } else if request.operation == "suggest" {
      prompt.Append(SuggestInstruction);
    } else {
      return Failure(UnknownOperationPrefix + request.operation);
    }
    assert prompt.chars == Instruction(ParseOperation(request.operation).value);
    prompt.Append(request.content);
    var s := prompt.ToString();
    return Success(s);
  }

  /** Recovers the request from a prompt, by the instruction it starts with. */
  function ParsePrompt(prompt: string): Option<ResearchRequest>
  {
    if SummarizeInstruction <= prompt then
      Some(ResearchRequest("summarize", prompt[|SummarizeInstruction|..]))
    else if SuggestInstruction <= prompt then
      Some(ResearchRequest("suggest", prompt[|SuggestInstruction|..]))
    else
      None
  }

  /** Neither instruction is a prefix of a prompt built from the other one. */
  lemma InstructionsDisagree(content: string)
    ensures !(SummarizeInstruction <= SuggestInstruction + content)
    ensures !(SuggestInstruction <= SummarizeInstruction + content)
  {
    assert (SuggestInstruction + content)[0] == 'B';
    assert (SummarizeInstruction + content)[0] == 'P';
  }

  /** A built prompt determines the request it was built from. */
  lemma PromptRoundTrip(request: ResearchRequest)
    requires Prompt(request).Success?
    ensures ParsePrompt(Prompt(request).value) == Some(request)
  {
    InstructionsDisagree(request.content);
    var p := Prompt(request).value;
    if request.operation == "summarize" {
      assert p[|SummarizeInstruction|..] == request.content;
    } else {
      assert p[|SuggestInstruction|..] == request.content;
    }
  }

  /** A prompt recognised by `ParsePrompt` is exactly the prompt built for the request it yields. */
  lemma ParsePromptInverse(prompt: string, request: ResearchRequest)
    requires ParsePrompt(prompt) == Some(request)
    ensures Prompt(request) == Success(prompt)
  {
    if SummarizeInstruction <= prompt {
      assert prompt == SummarizeInstruction + prompt[|SummarizeInstruction|..];
    } else {
      assert prompt == SuggestInstruction + prompt[|SuggestInstruction|..];
    }
  }

  /** Two requests that yield the same prompt are the same request. */
  lemma PromptInjective(a: ResearchRequest, b: ResearchRequest)
    requires Prompt(a).Success? && Prompt(b).Success?
    requires Prompt(a).value == Prompt(b).value
    ensures a == b
  {
    PromptRoundTrip(a);
    PromptRoundTrip(b);
  }

  /** Both instructions end in a colon and a blank line, so the content starts on a line of its own. */
  lemma InstructionsEndInBlankLine(o: Operation)
    ensures |Instruction(o)| >= 3 && Instruction(o)[|Instruction(o)| - 3..] == ":\n\n"
  {
  }

  /** Matching is case-sensitive: other spellings of the two names are unknown operations. */
  lemma OperationMatchIsCaseSensitive(content: string)
    ensures Prompt(ResearchRequest("Summarize", content)) == Failure(UnknownOperationPrefix + "Summarize")
    ensures Prompt(ResearchRequest("SUGGEST", content)) == Failure(UnknownOperationPrefix + "SUGGEST")
    ensures Prompt(ResearchRequest("summarize ", content)) == Failure(UnknownOperationPrefix + "summarize ")
  {
  }

  // ---------------------------------------------------------------------------------------
  // Request envelope and endpoint
  // ---------------------------------------------------------------------------------------

  /** The body posted for a prompt: one contents item holding one part whose text is the prompt. */
  function RequestBodyFor(prompt: string): (b: RequestBody)
    ensures |b.contents| == 1
    ensures |b.contents[0].parts| == 1
    ensures b.contents[0].parts[0].text == prompt
  {
    RequestBody([RequestContent([RequestPart(prompt)])])
  }

  /** The prompt carried by a body of the posted shape, if it has that shape. */
  function PromptOf(body: RequestBody): Option<string>
  {
    if |body.contents| == 1 && |body.contents[0].parts| == 1 then
      Some(body.contents[0].parts[0].text)
    else
      None
  }

  /** The prompt can be read back from the posted body. */
  lemma RequestBodyRoundTrip(prompt: string)
    ensures PromptOf(RequestBodyFor(prompt)) == Some(prompt)
  {
  }

  /** The endpoint: the configured base URL with the API key appended verbatim. */
  function RequestUrl(apiUrl: string, apiKey: string): (u: string)
    ensures |u| == |apiUrl| + |apiKey|
    ensures u[..|apiUrl|] == apiUrl
    ensures u[|apiUrl|..] == apiKey
  {
    apiUrl + apiKey
  }

  // ---------------------------------------------------------------------------------------
  // Response extractor
  // ---------------------------------------------------------------------------------------

  /** The first candidate is present and non-null. */
  predicate HasFirstCandidate(response: GeminiResponse)
  {
    response.candidates.Some? && |response.candidates.value| > 0 && response.candidates.value[0].Some?
  }

  /** The first candidate has content whose list of parts is present and non-empty. */
  predicate HasParts(candidate: Candidate)
  {
    candidate.content.Some? && candidate.content.value.parts.Some? && |candidate.content.value.parts.value| > 0
  }

  /**
   * The reply leads all the way to a non-null first part of the first candidate's content.
   */
  predicate WellShaped(response: GeminiResponse)
  {
    HasFirstCandidate(response)
    && HasParts(response.candidates.value[0].value)
    && response.candidates.value[0].value.content.value.parts.value[0].Some?
  }

  /** The text of the first part of the first candidate. */
  function FirstText(response: GeminiResponse): Option<string>
    requires WellShaped(response)
  {
    response.candidates.value[0].value.content.value.parts.value[0].value.text
  }

  /** The three calls on the navigation path that can be made on a null reference. */
  datatype NullSite =
    | NullReply      // `getCandidates()` on a null reply
    | NullCandidate  // `getContent()` on a null first candidate
    | NullPart       // `getText()` on a null first part

  /** The navigation reaches `site` with a null reference there, every earlier check having passed. */
  predicate DereferencesNullAt(decoded: Option<GeminiResponse>, site: NullSite)
  {
    match site
    case NullReply => decoded.None?
    case NullCandidate =>
      && decoded.Some? && decoded.value.candidates.Some? && |decoded.value.candidates.value| > 0
      && decoded.value.candidates.value[0].None?
    case NullPart =>
      && decoded.Some? && HasFirstCandidate(decoded.value)
      && HasParts(decoded.value.candidates.value[0].value)
      && decoded.value.candidates.value[0].value.content.value.parts.value[0].None?
  }

  /** The navigation dereferences a null somewhere. */
  predicate DereferencesNull(decoded: Option<GeminiResponse>)
  {
    DereferencesNullAt(decoded, NullReply)
    || DereferencesNullAt(decoded, NullCandidate)
    || DereferencesNullAt(decoded, NullPart)
  }

  /**
   * The text returned for a decoded reply. `nullMessage(site)` is the message the runtime
   * attaches to the NullPointerException raised when the navigation dereferences a null at
   * `site`; the handler catches it like a decoding failure. A null text is returned as `None`.
   */
  function ExtractText(decoding: Decoding, nullMessage: NullSite -> Option<string>): (r: Option<string>)
    ensures decoding.DecodeFailed? ==> r == Some(ErrorParsingPrefix + Rendered(decoding.message))
    ensures decoding.Decoded? && DereferencesNullAt(decoding.response, NullReply) ==>
      r == Some(ErrorParsingPrefix + Rendered(nullMessage(NullReply)))
    ensures decoding.Decoded? && DereferencesNullAt(decoding.response, NullCandidate) ==>
      r == Some(ErrorParsingPrefix + Rendered(nullMessage(NullCandidate)))
    ensures decoding.Decoded? && DereferencesNullAt(decoding.response, NullPart) ==>
      r == Some(ErrorParsingPrefix + Rendered(nullMessage(NullPart)))
    ensures decoding.Decoded? && decoding.response.Some? && WellShaped(decoding.response.value) ==>
      r == FirstText(decoding.response.value)
    ensures && decoding.Decoded? && decoding.response.Some? && !WellShaped(decoding.response.value)
            && !DereferencesNull(decoding.response)
            ==> r == Some(NoContent)
    ensures r.None? ==> decoding.Decoded? && decoding.response.Some? && WellShaped(decoding.response.value)
  {
    match decoding
    case DecodeFailed(message) => Some(ErrorParsingPrefix + Rendered(message))
    case Decoded(None) => Some(ErrorParsingPrefix + Rendered(nullMessage(NullReply)))
    case Decoded(Some(response)) =>
      if response.candidates.Some? && |response.candidates.value| > 0 then
        match response.candidates.value[0]
        case None => Some(ErrorParsingPrefix + Rendered(nullMessage(NullCandidate)))
        case Some(firstCandidate) =>
          if firstCandidate.content.Some?
             && firstCandidate.content.value.parts.Some?
             && |firstCandidate.content.value.parts.value| > 0
          then
            match firstCandidate.content.value.parts.value[0]
            case None => Some(ErrorParsingPrefix + Rendered(nullMessage(NullPart)))
            case Some(firstPart) => firstPart.text
          else
            Some(NoContent)
      else
        Some(NoContent)
  }

  /** The canonical reply: one candidate whose content holds one part with the given text. */
  function SingleTextReply(text: string): GeminiResponse
  {
    GeminiResponse(Some([Some(Candidate(Some(Content(Some([Some(Part(Some(text)))])))))]))
  }

  /** The canonical reply yields exactly its text. */
  lemma SingleTextRoundTrip(text: string, nullMessage: NullSite -> Option<string>)
    ensures ExtractText(Decoded(Some(SingleTextReply(text))), nullMessage) == Some(text)
  {
  }

  /** Candidates after the first are never consulted. */
  lemma LaterCandidatesIgnored(first: Option<Candidate>, more: seq<Option<Candidate>>, nullMessage: NullSite -> Option<string>)
    ensures ExtractText(Decoded(Some(GeminiResponse(Some([first] + more)))), nullMessage)
         == ExtractText(Decoded(Some(GeminiResponse(Some([first])))), nullMessage)
  {
  }

  /** Parts after the first are never consulted. */
  lemma LaterPartsIgnored(first: Option<Part>, more: seq<Option<Part>>, others: seq<Option<Candidate>>,
                          nullMessage: NullSite -> Option<string>)
    ensures ExtractText(Decoded(Some(GeminiResponse(Some([Some(Candidate(Some(Content(Some([first] + more)))))] + others)))), nullMessage)
         == ExtractText(Decoded(Some(GeminiResponse(Some([Some(Candidate(Some(Content(Some([first])))))])))), nullMessage)
  {
  }

  /**
   * Each missing or empty level the handler checks yields the sentinel, whatever follows it:
   * no candidate list, an empty one, a first candidate without content, content without a
   * part list, or an empty part list.
   */
  lemma EachMissingLevelGivesNoContent(others: seq<Option<Candidate>>, nullMessage: NullSite -> Option<string>)
    ensures ExtractText(Decoded(Some(GeminiResponse(None))), nullMessage) == Some(NoContent)
    ensures ExtractText(Decoded(Some(GeminiResponse(Some([])))), nullMessage) == Some(NoContent)
    ensures ExtractText(Decoded(Some(GeminiResponse(Some([Some(Candidate(None))] + others)))), nullMessage)
         == Some(NoContent)
    ensures ExtractText(Decoded(Some(GeminiResponse(Some([Some(Candidate(Some(Content(None))))] + others)))), nullMessage)
         == Some(NoContent)
    ensures ExtractText(Decoded(Some(GeminiResponse(Some([Some(Candidate(Some(Content(Some([])))))] + others)))), nullMessage)
         == Some(NoContent)
  {
  }

  /**
   * A reply whose generated text is the sentinel itself cannot be told apart from a reply
   * without candidates.
   */
  lemma SentinelIsAmbiguous(nullMessage: NullSite -> Option<string>)
    ensures ExtractText(Decoded(Some(SingleTextReply(NoContent))), nullMessage)
         == ExtractText(Decoded(Some(GeminiResponse(None))), nullMessage)
  {
  }

  // ---------------------------------------------------------------------------------------
  // The pipeline
  // ---------------------------------------------------------------------------------------

  /** The one outbound POST: where it goes and what it carries. */
  datatype HttpCall = HttpCall(url: string, body: RequestBody)

  /** What the blocking exchange yields: a transport failure, or the reply as the decoder sees it. */
  datatype Transport = TransportFailed(message: string) | Delivered(decoding: Decoding)

  /** The failures that reach the service's caller. */
  datatype ServiceError = InvalidOperation(message: string) | TransportError(message: string)

  /**
   * The HTTP client. Every POST it is given is recorded in `sent`; `reply` is what the
   * provider answers to a call.
   */
  class WebClient {
    var sent: seq<HttpCall>
    const reply: HttpCall -> Transport

    /** A client that has sent nothing yet. */
    constructor (reply: HttpCall -> Transport)
      ensures sent == [] && this.reply == reply
    {
      sent := [];
      this.reply := reply;
    }

    /** Posts `call` and blocks for the provider's answer. */
    method Post(call: HttpCall) returns (t: Transport)
      modifies this
      ensures sent == old(sent) + [call]
      ensures t == reply(call)
    {
      sent := sent + [call];
      t := reply(call);
    }
  }

  /**
   * Processes a request end to end: builds the prompt, posts it once through `client`, and
   * extracts the text from the reply. An unrecognised operation fails before anything is
   * posted; a transport failure is passed on; any reply shape yields a string (or the null text).
   */
  method ProcessContent(request: ResearchRequest, apiUrl: string, apiKey: string,
                        client: WebClient, nullMessage: NullSite -> Option<string>)
    returns (r: Result<Option<string>, ServiceError>)
    modifies client
    ensures Prompt(request).Failure? ==>
      && r == Failure(InvalidOperation(Prompt(request).error))
      && client.sent == old(client.sent)
    ensures Prompt(request).Success? ==>
      var call := HttpCall(RequestUrl(apiUrl, apiKey), RequestBodyFor(Prompt(request).value));
      && client.sent == old(client.sent) + [call]
      && match client.reply(call)
         case TransportFailed(m) => r == Failure(TransportError(m))
         case Delivered(d) => r == Success(ExtractText(d, nullMessage))
  {
    var prompt := BuildPrompt(request);
    if prompt.Failure? {
      return Failure(InvalidOperation(prompt.error));
    }
    var requestBody := RequestBodyFor(prompt.value);
    var response := client.Post(HttpCall(RequestUrl(apiUrl, apiKey), requestBody));
    if response.TransportFailed? {
      return Failure(TransportError(response.message));
    }
    r := Success(ExtractText(response.decoding, nullMessage));
  }
}
