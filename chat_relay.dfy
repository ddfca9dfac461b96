/**
 * POST /api/chat of the OpenRouter controller: the non-streaming chat request. The selected
 * model is asked first; only a rate limit (429) sends the request down the text fallback list,
 * and the list is walked skipping the configured chat model. A signed-in user's exchange is
 * stored, a new chat getting a title asked of the generation model with the same fallback.
 */
module ChatRelay {
  import opened Wrappers
  import opened Errors
  import opened Conversation
  import opened Fallback
  import opened Prompt
  import opened Titles
  import opened ChatStore

  /** The body fields the route reads. */
  datatype MessageRequest = MessageRequest(message: Option<string>, history: seq<HistoryItem>, chatId: Option<nat>, model: Option<string>)

  datatype ChatResponse =
    | Replied(message: string, chatId: Option<nat>)      // 200 {message, role: 'model', chatId}
    | Rejected(status: nat, error: string)               // 400 / 500 {error}
    | ChatFailed(code: ErrorCode, details: string)       // 500 {error: 'Failed to process chat message', code, details}

  predicate Missing(message: Option<string>) {
    message.None? || message.value == []
  }

  /** `model || CHAT_MODEL`. */
  function SelectedModel(cfg: Config, model: Option<string>): string {
    OrDefault(model, cfg.chatModel)
  }

  /** The chat request as the source makes it: the fallback walk skips `CHAT_MODEL`. */
  function ChatAttempt(cfg: Config, model: Option<string>, replies: nat -> Reply): Attempt {
    CompleteOnce(SelectedModel(cfg, model), FallbackModels, cfg.chatModel, replies)
  }

  /** The title request: the generation model first, the fallback walk skipping it. */
  function TitleAttempt(cfg: Config, titleReplies: nat -> Reply): Attempt {
    CompleteOnce(cfg.generationModel, FallbackModels, cfg.generationModel, titleReplies)
  }

  /** The title of a new chat: the cleaned generated title, or, if none came, the cut message. */
  function SynthesizedTitle(cfg: Config, message: string, titleReplies: nat -> Reply): (t: string)
    ensures TitleAttempt(cfg, titleReplies).result.Failure? ==> t == DefaultTitle(message)
    ensures TitleAttempt(cfg, titleReplies).result.Success? ==>
              t == CleanTitle(TitleAttempt(cfg, titleReplies).result.value.text) && |t| <= MaxTitle
  {
    var a := TitleAttempt(cfg, titleReplies);
    if a.result.Success? then CleanTitle(a.result.value.text) else DefaultTitle(message)
  }

  /** The title request never calls the same model twice. */
  lemma TitleAttemptDistinct(cfg: Config, titleReplies: nat -> Reply)
    ensures Distinct(TitleAttempt(cfg, titleReplies).calls)
  {
    SkippingSelectedNeverRepeats(cfg.generationModel, FallbackModels, titleReplies);
  }

  /** A rate limit on every call. */
  const RateLimitedEverywhere: nat -> Reply :=
    k => Refused(JsError(429, "", "Rate limit exceeded", "Error: Rate limit exceeded"))

  /**
   * As written, a request that selects a model of the fallback list other than `CHAT_MODEL`
   * asks that same model again after it was rate limited: with the default chat model and
   * Llama selected, the calls are Llama, Llama, Hermes, and the route fails with the first
   * error although only two distinct models were tried.
   */
  lemma SelectedModelCalledTwice(cfg: Config)
    requires cfg.chatModel == DefaultModel
    ensures var a := ChatAttempt(cfg, Some(Llama), RateLimitedEverywhere);
            a.calls == [Llama, Llama, Hermes] && !Distinct(a.calls)
            && a.result == Failure(RateLimitedEverywhere(0).error)
  {
    var a := ChatAttempt(cfg, Some(Llama), RateLimitedEverywhere);
    var w := FallbackWalk(FallbackModels, DefaultModel, RateLimitedEverywhere, 1, 0);
    assert w == FallbackWalk(FallbackModels, DefaultModel, RateLimitedEverywhere, 1, 1);
    assert w.calls == [Llama] + FallbackWalk(FallbackModels, DefaultModel, RateLimitedEverywhere, 2, 2).calls;
    assert FallbackWalk(FallbackModels, DefaultModel, RateLimitedEverywhere, 2, 2).calls
        == [Hermes] + FallbackWalk(FallbackModels, DefaultModel, RateLimitedEverywhere, 3, 3).calls;
    assert a.calls[0] == a.calls[1];
  }

  /** The chat request with the evidently intended skip: the model that was rate limited. */
  function IntendedChatAttempt(cfg: Config, model: Option<string>, replies: nat -> Reply): (a: Attempt)
    ensures Distinct(a.calls)
    ensures a.calls != [] && a.calls[0] == SelectedModel(cfg, model)
  {
    SkippingSelectedNeverRepeats(SelectedModel(cfg, model), FallbackModels, replies);
    CompleteOnce(SelectedModel(cfg, model), FallbackModels, SelectedModel(cfg, model), replies)
  }

  /** The two agree whenever the selected model is the configured chat model. */
  lemma IntendedAgreesOnDefault(cfg: Config, replies: nat -> Reply)
    ensures IntendedChatAttempt(cfg, None, replies) == ChatAttempt(cfg, None, replies)
  {
  }

  /**
   * The route: validation, the chat request with fallback, then, for a signed-in user, the
   * stored exchange. `replies` answers the chat calls and `titleReplies` the title calls.
   */
  method SendMessage(db: Database, cfg: Config, user: Option<nat>, req: MessageRequest,
                     replies: nat -> Reply, titleReplies: nat -> Reply, dbOk: bool)
    returns (response: ChatResponse, calls: seq<Call>)
    requires db.Valid()
    modifies db
    ensures db.Valid()
    ensures db.activities == old(db.activities)
    ensures Missing(req.message) ==>
              response == Rejected(400, "Message is required") && calls == [] && db.chats == old(db.chats)
    ensures !Missing(req.message) && !cfg.apiKeySet ==>
              response == Rejected(500, "OPENROUTER_API_KEY is not configured") && calls == [] && db.chats == old(db.chats)
    ensures !Missing(req.message) && cfg.apiKeySet ==>
              var message := req.message.value;
              var a := ChatAttempt(cfg, req.model, replies);
              var prompt := BuildPrompt(req.history, message, None);
              && (a.result.Failure? ==>
                    && response == ChatFailed(CodeOf(a.result.error), DetailsOf(a.result.error))
                    && calls == CallsTo(a.calls, prompt) && db.chats == old(db.chats))
              && (a.result.Success? ==>
                    && response.Replied? && response.message == a.result.value.text
                    && (user.None? ==>
                          response.chatId == req.chatId && db.chats == old(db.chats) && calls == CallsTo(a.calls, prompt))
                    && (user.Some? && req.chatId.Some? ==> calls == CallsTo(a.calls, prompt))
                    && (user.Some? && req.chatId.None? ==>
                          calls == CallsTo(a.calls, prompt)
                                   + CallsTo(TitleAttempt(cfg, titleReplies).calls, SingleUserMessage(TitlePrompt(message))))
                    && (user.Some? ==>
                          SaveEffect(old(db.chats), old(db.nextChatId), db.chats, response.chatId, user.value, req.chatId,
                                     SynthesizedTitle(cfg, message, titleReplies), message, a.result.value.text, dbOk)))
  {
    if Missing(req.message) {
      return Rejected(400, "Message is required"), [];
    }
    if !cfg.apiKeySet {
      return Rejected(500, "OPENROUTER_API_KEY is not configured"), [];
    }
    var message := req.message.value;
    var prompt := BuildPrompt(req.history, message, None);
    var tried, result := CompleteWithFallback(SelectedModel(cfg, req.model), FallbackModels, cfg.chatModel, replies);
    calls := CallsTo(tried, prompt);
    if result.Failure? {
      return ChatFailed(CodeOf(result.error), DetailsOf(result.error)), calls;
    }
    var text := result.value.text;
    var savedChatId := req.chatId;
    if user.Some? {
      var title := "";
      if req.chatId.None? {
        title := DefaultTitle(message);
        var titleTried, titleResult :=
          CompleteWithFallback(cfg.generationModel, FallbackModels, cfg.generationModel, titleReplies);
        calls := calls + CallsTo(titleTried, SingleUserMessage(TitlePrompt(message)));
        if titleResult.Success? {
          title := CleanTitle(titleResult.value.text);
        }
      }
      savedChatId := db.SaveExchange(user.value, req.chatId, title, message, text, dbOk);
    }
    response := Replied(text, savedChatId);
  }
}
