/**
 * POST /api/chat/flashcards and /api/chat/quiz of the OpenRouter controller: a transcript
 * prompt to the selected generation model with fallback on a rate limit, fence stripping and
 * JSON parsing of the reply, and, when the request names a chat of a signed-in user, a stored
 * activity.
 *
 * `parse` stands for `JSON.parse` (its error message on failure); `today` for the locale date
 * of the default activity title.
 */
module Artifacts {
  import opened Wrappers
  import opened Text
  import opened Errors
  import opened Conversation
  import opened PromptText
  import opened Fallback
  import opened Prompt
  import opened ChatStore

  datatype ArtifactRequest = ArtifactRequest(history: seq<HistoryItem>, chatId: Option<nat>, model: Option<string>)

  datatype ArtifactResponse =
    | Generated(value: Parsed, activityId: Option<nat>)   // 200, the parsed object, with activityId when stored
    | NotConfigured(error: string)                        // 500 {error}
    | GenerationFailed(error: string, details: string)    // 500 {error, details}

  /** The generation prompt: the fixed head, the transcript, the fixed tail. */
  function ArtifactPrompt(kind: ArtifactKind, history: seq<HistoryItem>): string {
    match kind
    case FlashCardSet => FlashCardPromptHead + Transcript(history) + FlashCardPromptTail
    case Quiz => QuizPromptHead + Transcript(history) + QuizPromptTail
  }

  /** `model || GENERATION_MODEL`. */
  function GenerationModel(cfg: Config, model: Option<string>): string {
    OrDefault(model, cfg.generationModel)
  }

  /** The generation request: the selected model first, the fallback walk skipping it. */
  function GenerationAttempt(cfg: Config, model: Option<string>, replies: nat -> Reply): (a: Attempt)
    ensures Distinct(a.calls)
    ensures a.calls != [] && a.calls[0] == GenerationModel(cfg, model)
  {
    SkippingSelectedNeverRepeats(GenerationModel(cfg, model), FallbackModels, replies);
    CompleteOnce(GenerationModel(cfg, model), FallbackModels, GenerationModel(cfg, model), replies)
  }

  /** `parsed.title || 'Flash Cards (date)'` / `'Quiz (date)'`. */
  function ActivityTitle(kind: ArtifactKind, parsed: Parsed, today: string): (t: string)
    ensures parsed.title != [] ==> t == parsed.title
    ensures parsed.title == [] && kind == FlashCardSet ==> t == "Flash Cards (" + today + ")"
    ensures parsed.title == [] && kind == Quiz ==> t == "Quiz (" + today + ")"
    ensures t != []
  {
    if parsed.title != [] then parsed.title
    else match kind
      case FlashCardSet => "Flash Cards (" + today + ")"
      case Quiz => "Quiz (" + today + ")"
  }

  /** The parse of a reply's text after its code fences are stripped. */
  function ParsedReply(text: string, parse: string -> Result<Parsed, string>): Result<Parsed, string> {
    parse(StripCodeFences(text))
  }

  /**
   * The answer apart from storage: the parsed object when the request produced text that
   * parses, otherwise the failure with the provider's or the parser's message.
   */
  function Outcome(kind: ArtifactKind, a: Attempt, parse: string -> Result<Parsed, string>): (r: Result<Parsed, string>)
    ensures r.Success? <==> a.result.Success? && ParsedReply(a.result.value.text, parse).Success?
    ensures r.Success? ==> r.value == ParsedReply(a.result.value.text, parse).value
    ensures r.Failure? ==> r.error != []
    ensures a.result.Failure? ==> r == Failure(MessageOf(a.result.error))
  {
    match a.result
    case Failure(e) => Failure(MessageOf(e))
    case Success(c) =>
      match ParsedReply(c.text, parse)
      case Success(v) => Success(v)
      case Failure(m) => Failure(MessageOf(Raised(m)))
  }

  /**
   * A reply that wraps a JSON document in a ```json fence, from the first model asked, is
   * answered with what the document parses to.
   */
  lemma FencedReplyIsParsed(kind: ArtifactKind, cfg: Config, model: Option<string>, replies: nat -> Reply,
                            json: string, parse: string -> Result<Parsed, string>, v: Parsed)
    requires forall i :: 0 <= i < |json| ==> json[i] != '`'
    requires Trimmed(json) && parse(json) == Success(v)
    requires replies(0) == Answered(JsonFence + "\n" + json + "\n" + Fence)
    ensures Outcome(kind, GenerationAttempt(cfg, model, replies), parse) == Success(v)
  {
    FencedPayloadRoundTrip(json);
  }

  /**
   * The route. The activity is stored only for a signed-in user whose request names a chat,
   * and its failure is swallowed: the parsed object is still returned, without an id.
   */
  method Generate(db: Database, cfg: Config, user: Option<nat>, kind: ArtifactKind, req: ArtifactRequest,
                  replies: nat -> Reply, parse: string -> Result<Parsed, string>, today: string, dbOk: bool)
    returns (response: ArtifactResponse, calls: seq<Call>)
    requires db.Valid()
    modifies db
    ensures db.Valid()
    ensures db.chats == old(db.chats)
    ensures !cfg.apiKeySet ==>
              response == NotConfigured("OPENROUTER_API_KEY is not configured") && calls == []
              && db.activities == old(db.activities)
    ensures cfg.apiKeySet ==>
              var a := GenerationAttempt(cfg, req.model, replies);
              var outcome := Outcome(kind, a, parse);
              && calls == CallsTo(a.calls, SingleUserMessage(ArtifactPrompt(kind, req.history)))
              && (outcome.Failure? ==>
                    response == GenerationFailed(GenerationFailureText(kind), outcome.error)
                    && db.activities == old(db.activities))
              && (outcome.Success? ==>
                    var stored := user.Some? && req.chatId.Some? && dbOk;
                    && response.Generated? && response.value == outcome.value
                    && (response.activityId.Some? <==> stored)
                    && (stored ==>
                          var id := response.activityId.value;
                          id !in old(db.activities)
                          && db.activities == old(db.activities)[id := ActivityDoc(user.value, req.chatId.value, kind,
                                                                          ActivityTitle(kind, outcome.value, today), outcome.value.items)])
                    && (!stored ==> db.activities == old(db.activities)))
  {
    if !cfg.apiKeySet {
      return NotConfigured("OPENROUTER_API_KEY is not configured"), [];
    }
    var selected := GenerationModel(cfg, req.model);
    var prompt := SingleUserMessage(ArtifactPrompt(kind, req.history));
    var tried, result := CompleteWithFallback(selected, FallbackModels, selected, replies);
    calls := CallsTo(tried, prompt);
    if result.Failure? {
      return GenerationFailed(GenerationFailureText(kind), MessageOf(result.error)), calls;
    }
    var parsed := parse(StripCodeFences(result.value.text));
    if parsed.Failure? {
      return GenerationFailed(GenerationFailureText(kind), MessageOf(Raised(parsed.error))), calls;
    }
    var value := parsed.value;
    if user.Some? && req.chatId.Some? {
      var doc := ActivityDoc(user.value, req.chatId.value, kind, ActivityTitle(kind, value, today), value.items);
      var id := db.CreateActivity(doc, dbOk);
      if id.Some? {
        return Generated(value, id), calls;
      }
    }
    response := Generated(value, None);
  }
}
