# Research service: prompt building and response extraction

This project models the decision logic of the research assistant's `ResearchService`:

- the **prompt builder**, which maps a request's operation name (`"summarize"` or `"suggest"`,
  matched exactly) to a fixed instruction, appends the request's content unchanged in a string
  buffer, and throws `IllegalArgumentException("Unknown Operation: " + op)` for any other name;
- the **request envelope** posted to the generative-language API (one `contents` item holding
  one `parts` item whose `text` is the prompt) and the endpoint URL (base URL with the API key
  appended verbatim);
- the **response extractor**, which walks the decoded reply (candidates, the first candidate's
  content, its parts, the first part's text) and returns that text, the sentinel
  `"No content found in response"` when a level is missing or empty, or
  `"Error Parsing: " + message` when any exception is raised inside its `try`;
- the **pipeline** `processContent`, posting through an HTTP client object that records every call it is given.

Files:

- `wrappers.dfy`: `Option` (a Java reference that may be null) and `Result` (a value or a thrown exception).
- `messages.dfy`: the request, the posted envelope and the decoded reply. Every level of the
  reply is nullable, list elements included, so "absent" and "empty list" are kept apart.
- `text_builder.dfy`: a string buffer appended to in place. It stands for the `StringBuilder` the builder uses.
- `research_service.dfy`: the operations and the properties proved about them.

Two behaviours of the code are easy to miss, and the model keeps both:

- The extractor can return **null**, because the first part's `getText()` is returned as it is.
  The model's result is therefore `Option<string>`.
- A **null** reply, a null first candidate or a null first part makes the code dereference null.
  The resulting `NullPointerException` is caught by the same handler, so the result is
  `"Error Parsing: " + message`. The runtime decides that message, and it may differ between the
  three places a null can be met (`getCandidates()`, `getContent()`, `getText()`), so the model
  takes it as a parameter `nullMessage` from the place (`NullSite`) to the message. A null
  message is rendered `"null"`, as Java's string concatenation does.

## Model

| member | source | states |
|---|---|---|
| `ResearchService.ParseOperation` | research-assistant/src/main/java/com/research/assistant/ResearchService.java:72-80 | an operation is recognised exactly when its name is `"summarize"` or `"suggest"`, matched exactly, and the recognised operation's name is the one given |
| `ResearchService.OperationNameRoundTrip` | research-assistant/src/main/java/com/research/assistant/ResearchService.java:72-78 | each operation's own name selects that operation |
| `ResearchService.Prompt` | research-assistant/src/main/java/com/research/assistant/ResearchService.java:70-84 | success exactly for a recognised operation; then the prompt is the operation's instruction followed by the unmodified content, and its length is the sum of theirs; otherwise the failure message is `"Unknown Operation: "` followed by the operation |
| `ResearchService.BuildPrompt` | research-assistant/src/main/java/com/research/assistant/ResearchService.java:70-84 | appending the instruction and then the content to a fresh buffer yields exactly `Prompt(request)`; an unknown operation fails before any content is appended |
| `ResearchService.InstructionsDisagree` | research-assistant/src/main/java/com/research/assistant/ResearchService.java:73-77 | neither instruction is a prefix of a prompt that starts with the other one |
| `ResearchService.PromptRoundTrip` | research-assistant/src/main/java/com/research/assistant/ResearchService.java:72-83 | the operation and the content can be recovered from every prompt the builder produces |
| `ResearchService.ParsePromptInverse` | research-assistant/src/main/java/com/research/assistant/ResearchService.java:72-83 | every string that starts with one of the instructions is exactly the prompt built for the request read back from it, so reading back is an exact inverse of building |
| `ResearchService.PromptInjective` | research-assistant/src/main/java/com/research/assistant/ResearchService.java:72-83 | two requests that produce the same prompt are the same request |
| `ResearchService.InstructionsEndInBlankLine` | research-assistant/src/main/java/com/research/assistant/ResearchService.java:73-77 | both instructions end in `":\n\n"` |
| `ResearchService.OperationMatchIsCaseSensitive` | research-assistant/src/main/java/com/research/assistant/ResearchService.java:72-80 | `"Summarize"`, `"SUGGEST"` and `"summarize "` are unknown operations, each failing with `"Unknown Operation: "` followed by its own spelling |
| `ResearchService.RequestBodyFor` | research-assistant/src/main/java/com/research/assistant/ResearchService.java:32-38 | the posted body holds exactly one contents item, which holds exactly one part, whose text is the prompt |
| `ResearchService.RequestBodyRoundTrip` | research-assistant/src/main/java/com/research/assistant/ResearchService.java:32-38 | the prompt can be read back from the posted body |
| `ResearchService.RequestUrl` | research-assistant/src/main/java/com/research/assistant/ResearchService.java:41 | the URL starts with the configured base URL, continues with the API key unchanged, and is no longer than the two together |
| `ResearchService.ExtractText` | research-assistant/src/main/java/com/research/assistant/ResearchService.java:53-68 | a decode failure gives `"Error Parsing: "` followed by its message. A null reply, a null first candidate, or a null first part (when every earlier check passes) gives `"Error Parsing: "` followed by the runtime's message for that place. A reply that reaches a first part gives exactly that part's text, which may be null. Every other reply gives `"No content found in response"`. A null result only comes from a null text |
| `ResearchService.SingleTextRoundTrip` | research-assistant/src/main/java/com/research/assistant/ResearchService.java:56-61 | a reply with one candidate, one content and one part with text `x` yields exactly `x` |
| `ResearchService.LaterCandidatesIgnored` | research-assistant/src/main/java/com/research/assistant/ResearchService.java:56-57 | candidates after the first never change the result |
| `ResearchService.LaterPartsIgnored` | research-assistant/src/main/java/com/research/assistant/ResearchService.java:57-61 | parts after the first, and candidates after the first, never change the result |
| `ResearchService.EachMissingLevelGivesNoContent` | research-assistant/src/main/java/com/research/assistant/ResearchService.java:56-64 | an absent or empty candidate list, a first candidate without content, and content with an absent or empty part list each give the sentinel, whatever candidates follow |
| `ResearchService.SentinelIsAmbiguous` | research-assistant/src/main/java/com/research/assistant/ResearchService.java:61-64 | a reply whose text is the sentinel gives the same result as a reply without candidates |
| `ResearchService.WebClient.Post` | research-assistant/src/main/java/com/research/assistant/ResearchService.java:40-45 | the call is appended to the client's record of sent calls and the provider's answer to it is returned |
| `ResearchService.ProcessContent` | research-assistant/src/main/java/com/research/assistant/ResearchService.java:27-51 | an unknown operation fails with the builder's message and posts nothing. Otherwise exactly one call is added to the client's record, to the base URL followed by the key, with the single-part body carrying the prompt. A transport failure propagates. Any delivered reply yields the extractor's result and never a failure |

## Left out

- The WebClient POST and `.block()` are network I/O. The client is the class `WebClient`, which
  records each call and answers it with its fixed `reply` function (a transport failure or a
  delivered reply). Connection handling, timeouts and the response's media type are not modelled.
- Jackson's `readValue` is a foreign JSON decoder. Its outcome is the input `Decoding`
  (`DecodeFailed(message)` or `Decoded(response)`), with no JSON syntax modelled. This covers a
  null body too, which Jackson refuses with an exception.
- The message of a `NullPointerException` comes from the Java runtime. It is the parameter
  `nullMessage`, one message per place where the null is met.
- Spring wiring is framework plumbing: the `@Value` configuration fields and the constructor
  building the WebClient. The base URL and the key are plain parameters.
- `ResearchRequest` and `GeminiResponse` are not part of this model. Minimal datatypes stand for them.
  Request fields are taken as non-null strings. A null operation in `switch`, and a null content
  (which `StringBuilder.append` would render as `"null"`), are not modelled.
- `StringBuilder`'s internal growable array is library code. The buffer is modelled by its
  character sequence.
- The commented-out walkthrough after the class is prose, not code. Its summarize instruction
  is an older text; the model uses the live literal.
