/**
 * The earlier Gemini-backed chat controller: request validation, the mapping of the client's
 * history onto the SDK's chat turns, extraction of the reply text from the SDK response, and
 * the error responses. The SDK call itself is an input: what `chat.sendMessage` returned or
 * threw.
 */
module GeminiController {
  import opened Wrappers
  import opened Text
  import opened Errors
  import opened Conversation
  import opened PromptText

  /** The part of the SDK response the controller reads: `candidates[0].content.parts[0].text`. */
  datatype Part = Part(text: Option<string>)
  datatype Content = Content(parts: Option<seq<Part>>)
  datatype Candidate = Candidate(content: Option<Content>)
  datatype GenerateResponse = GenerateResponse(candidates: Option<seq<Candidate>>)

  /** A turn of the SDK's chat history, `{role, parts: [{text}]}`. */
  datatype SdkTurn = SdkTurn(role: string, parts: seq<Part>)

  /** What the SDK call produced: a response, or a thrown error. */
  datatype SdkReply = Replied(response: GenerateResponse) | Threw(error: JsError)

  const UnexpectedStructure: string := "Unexpected response structure from Gemini API"

  /** `history.map(msg => ({role: msg.role, parts: [{text: msg.content}]}))`. */
  function ToSdkHistory(history: seq<HistoryItem>): (turns: seq<SdkTurn>)
    ensures |turns| == |history|
    ensures forall i :: 0 <= i < |history| ==>
              turns[i].role == history[i].role && turns[i].parts == [Part(Some(history[i].content))]
  {
    seq(|history|, i requires 0 <= i < |history| => SdkTurn(history[i].role, [Part(Some(history[i].content))]))
  }

  /** Reads a history item back out of an SDK turn that has a text part. */
  function FromSdkTurn(turn: SdkTurn): HistoryItem
    requires turn.parts != [] && turn.parts[0].text.Some?
  {
    HistoryItem(turn.role, turn.parts[0].text.value)
  }

  /** The mapping loses nothing: role and content of every item, in order, are recoverable. */
  lemma SdkHistoryRoundTrip(history: seq<HistoryItem>)
    ensures var turns := ToSdkHistory(history);
            forall i :: 0 <= i < |turns| ==> turns[i].parts != [] && turns[i].parts[0].text.Some? && FromSdkTurn(turns[i]) == history[i]
  {
  }

  /**
   * `candidates[0].content.parts[0].text` when every step exists and the text is non-empty,
   * otherwise the "Unexpected response structure" error.
   */
  function ResponseText(r: GenerateResponse): (t: Result<string, JsError>)
    ensures t.Success? <==>
              && r.candidates.Some? && r.candidates.value != []
              && r.candidates.value[0].content.Some?
              && r.candidates.value[0].content.value.parts.Some?
              && r.candidates.value[0].content.value.parts.value != []
              && r.candidates.value[0].content.value.parts.value[0].text.Some?
              && r.candidates.value[0].content.value.parts.value[0].text.value != []
    ensures t.Success? ==> Some(t.value) == r.candidates.value[0].content.value.parts.value[0].text
    ensures t.Failure? ==> t.error == Raised(UnexpectedStructure)
  {
    match r.candidates
    case Some(cs) =>
      if cs != [] && cs[0].content.Some? && cs[0].content.value.parts.Some?
         && cs[0].content.value.parts.value != [] && cs[0].content.value.parts.value[0].text.Some?
         && cs[0].content.value.parts.value[0].text.value != ""
      then Success(cs[0].content.value.parts.value[0].text.value)
      else Failure(Raised(UnexpectedStructure))
    case None => Failure(Raised(UnexpectedStructure))
  }

  /** The response shape the SDK gives for a single text reply. */
  function SingleCandidate(text: string): GenerateResponse {
    GenerateResponse(Some([Candidate(Some(Content(Some([Part(Some(text))]))))]))
  }

  /** A single non-empty text reply is extracted as is; an empty one counts as malformed. */
  lemma SingleCandidateText(text: string)
    ensures ResponseText(SingleCandidate(text)) == if text == [] then Failure(Raised(UnexpectedStructure)) else Success(text)
  {
  }

  /** What the chat route answers. */
  datatype ChatResponse =
    | Answered(message: string)                          // 200 {message, role: 'model'}
    | BadRequest(error: string)                          // 400 {error}
    | NotConfigured(error: string)                       // 500 {error}
    | ChatFailed(code: ErrorCode, details: string)       // 500 {error: 'Failed to process chat message', code, details}

  /** The SDK chat call made by a request: the mapped history and the new message. */
  datatype ChatCall = ChatCall(history: seq<SdkTurn>, message: string)

  datatype ChatExchange = ChatExchange(call: Option<ChatCall>, response: ChatResponse)

  /** `!message` in JavaScript: absent or the empty string. */
  predicate Missing(message: Option<string>) {
    message.None? || message.value == ""
  }

  /** POST /api/chat of the Gemini controller. */
  function SendMessage(message: Option<string>, history: seq<HistoryItem>, apiKeySet: bool, reply: SdkReply): (x: ChatExchange)
    ensures Missing(message) ==> x == ChatExchange(None, BadRequest("Message is required"))
    ensures !Missing(message) && !apiKeySet ==> x == ChatExchange(None, NotConfigured("GEMINI_API_KEY is not configured"))
    ensures !Missing(message) && apiKeySet ==> x.call == Some(ChatCall(ToSdkHistory(history), message.value))
    ensures x.response.Answered? <==>
              !Missing(message) && apiKeySet && reply.Replied? && ResponseText(reply.response).Success?
    ensures x.response.Answered? ==> x.response.message == ResponseText(reply.response).value
    ensures !Missing(message) && apiKeySet && reply.Threw? ==>
              x.response == ChatFailed(CodeOf(reply.error), DetailsOf(reply.error))
    ensures !Missing(message) && apiKeySet && reply.Replied? && ResponseText(reply.response).Failure? ==>
              x.response == ChatFailed(Unknown, UnexpectedStructure)
  {
    if Missing(message) then ChatExchange(None, BadRequest("Message is required"))
    else if !apiKeySet then ChatExchange(None, NotConfigured("GEMINI_API_KEY is not configured"))
    else
      var call := Some(ChatCall(ToSdkHistory(history), message.value));
      match reply
      case Threw(e) => ChatExchange(call, ChatFailed(CodeOf(e), DetailsOf(e)))
      case Replied(r) =>
        match ResponseText(r)
        case Success(t) => ChatExchange(call, Answered(t))
        case Failure(e) => ChatExchange(call, ChatFailed(CodeOf(e), DetailsOf(e)))
  }

  /** A malformed SDK response is reported with code UNKNOWN and the structure message. */
  lemma MalformedResponseIsUnknown(message: string, history: seq<HistoryItem>, r: GenerateResponse)
    requires message != [] && ResponseText(r).Failure?
    ensures SendMessage(Some(message), history, true, Replied(r)).response == ChatFailed(Unknown, UnexpectedStructure)
  {
  }

  /** The generation prompt: the fixed head, the transcript, the fixed tail. */
  function ArtifactPrompt(kind: ArtifactKind, history: seq<HistoryItem>): string {
    match kind
    case FlashCardSet => GeminiFlashCardPromptHead + Transcript(history) + GeminiFlashCardPromptTail
    case Quiz => GeminiQuizPromptHead + Transcript(history) + GeminiQuizPromptTail
  }

  datatype ArtifactResponse =
    | Generated(value: Parsed)                             // 200, the parsed object
    | ArtifactNotConfigured(error: string)                 // 500 {error}
    | GenerationFailed(error: string, details: string)     // 500 {error, details}

  /** The prompt sent (when a call is made) and the response. */
  datatype ArtifactExchange = ArtifactExchange(prompt: Option<string>, response: ArtifactResponse)

  /**
   * POST /api/chat/flashcards and /api/chat/quiz of the Gemini controller. `parse` stands for
   * `JSON.parse` and yields the parse error's message on failure.
   */
  function GenerateArtifact(kind: ArtifactKind, history: seq<HistoryItem>, apiKeySet: bool, reply: SdkReply,
                            parse: string -> Result<Parsed, string>): (x: ArtifactExchange)
    ensures !apiKeySet ==> x == ArtifactExchange(None, ArtifactNotConfigured("GEMINI_API_KEY is not configured"))
    ensures apiKeySet ==> x.prompt == Some(ArtifactPrompt(kind, history)) && !x.response.ArtifactNotConfigured?
    ensures x.response.Generated? <==>
              apiKeySet && reply.Replied? && ResponseText(reply.response).Success?
              && parse(StripCodeFences(ResponseText(reply.response).value)).Success?
    ensures x.response.Generated? ==>
              x.response.value == parse(StripCodeFences(ResponseText(reply.response).value)).value
    ensures x.response.GenerationFailed? ==> x.response.error == GenerationFailureText(kind) && x.response.details != []
    ensures apiKeySet && reply.Threw? ==>
              x.response == GenerationFailed(GenerationFailureText(kind), MessageOf(reply.error))
    ensures apiKeySet && reply.Replied? && ResponseText(reply.response).Failure? ==>
              x.response == GenerationFailed(GenerationFailureText(kind), UnexpectedStructure)
    ensures apiKeySet && reply.Replied? && ResponseText(reply.response).Success?
            && parse(StripCodeFences(ResponseText(reply.response).value)).Failure? ==>
              x.response == GenerationFailed(GenerationFailureText(kind),
                MessageOf(Raised(parse(StripCodeFences(ResponseText(reply.response).value)).error)))
  {
    if !apiKeySet then ArtifactExchange(None, ArtifactNotConfigured("GEMINI_API_KEY is not configured"))
    else
      var prompt := Some(ArtifactPrompt(kind, history));
      match reply
      case Threw(e) => ArtifactExchange(prompt, GenerationFailed(GenerationFailureText(kind), MessageOf(e)))
      case Replied(r) =>
        match ResponseText(r)
        case Failure(e) => ArtifactExchange(prompt, GenerationFailed(GenerationFailureText(kind), MessageOf(e)))
        case Success(text) =>
          match parse(StripCodeFences(text))
          case Success(v) => ArtifactExchange(prompt, Generated(v))
          case Failure(m) => ArtifactExchange(prompt, GenerationFailed(GenerationFailureText(kind), MessageOf(Raised(m))))
  }

  /**
   * A reply that wraps a JSON document in a ```json fence is parsed as if the fence were not
   * there: the route answers with exactly what the document parses to.
   */
  lemma FencedReplyIsParsed(kind: ArtifactKind, history: seq<HistoryItem>, json: string,
                            parse: string -> Result<Parsed, string>, v: Parsed)
    requires json != [] && Trimmed(json) && forall i :: 0 <= i < |json| ==> json[i] != '`'
    requires parse(json) == Success(v)
    ensures GenerateArtifact(kind, history, true, Replied(SingleCandidate(JsonFence + "\n" + json + "\n" + Fence)), parse).response
         == Generated(v)
  {
    var text := JsonFence + "\n" + json + "\n" + Fence;
    SingleCandidateText(text);
    FencedPayloadRoundTrip(json);
  }
}
