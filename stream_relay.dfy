/**
 * POST /api/chat/stream of the OpenRouter controller: the streaming relay that tries the
 * candidate models in order, forwards every non-empty delta to the client as it arrives,
 * moves on to the next candidate on a 429 or 400, and, once a model has finished, stores the
 * exchange and sends the closing event with the chat id.
 *
 * The streaming call of the i-th candidate is not performed: `replies(i)` lists the deltas it
 * yielded and, when it broke off or never started, the error it threw.
 */
module StreamRelay {
  import opened Wrappers
  import opened Errors
  import opened Conversation
  import opened Fallback
  import opened Prompt
  import opened Titles
  import opened ChatStore

  /** One streaming call: the deltas it yielded (absent ones as ""), and the error if it failed. */
  datatype StreamReply = Streamed(deltas: seq<string>) | BrokeOff(deltas: seq<string>, error: JsError)

  /** What the client receives: the `{content, done: false}` events and the closing event. */
  datatype Event = Chunk(content: string) | Done(chatId: Option<nat>)

  /**
   * How the event stream ends: closed after the closing event; closed after an `{error}`
   * event; or left open, when the error handler finds the headers already sent by the chunks
   * and its attempt at a JSON 500 response fails in turn.
   */
  datatype Ending = Closed | ErrorEvent(message: string) | LeftOpen

  /**
   * The route's answer: a JSON error before streaming starts, or the event stream and how it
   * ends.
   */
  datatype StreamResponse =
    | Rejected(status: nat, error: string)
    | Stream(events: seq<Event>, ending: Ending)

  /**
   * The end of a stream that failed after `written` chunks: the `{error}` event only while
   * nothing was written, since the first chunk sends the headers.
   */
  function FailureEnding(written: seq<string>, e: JsError): (end: Ending)
    ensures end != Closed
    ensures end.ErrorEvent? <==> written == []
    ensures end.ErrorEvent? ==> end.message == e.message
  {
    if written == [] then ErrorEvent(e.message) else LeftOpen
  }

  /** The text a sequence of deltas spells. */
  function Concat(ds: seq<string>): string {
    if ds == [] then "" else Concat(ds[..|ds| - 1]) + ds[|ds| - 1]
  }

  lemma {:induction false} ConcatAppend(a: seq<string>, b: seq<string>)
    ensures Concat(a + b) == Concat(a) + Concat(b)
    decreases |b|
  {
    if b == [] {
      assert a + b == a;
    } else {
      var c := a + b;
      assert c[..|c| - 1] == a + b[..|b| - 1];
      ConcatAppend(a, b[..|b| - 1]);
    }
  }

  /**
   * The deltas that become events: the non-empty ones, in arrival order. They spell the same
   * text as all the deltas.
   */
  function Written(ds: seq<string>): (w: seq<string>)
    ensures forall k :: 0 <= k < |w| ==> w[k] != []
    ensures |w| <= |ds|
    ensures Concat(w) == Concat(ds)
  {
    if ds == [] then []
    else
      var init := Written(ds[..|ds| - 1]);
      var last := ds[|ds| - 1];
      if last == [] then init
      else
        assert (init + [last])[..|init|] == init;
        init + [last]
  }

  /** The chunk events for written deltas. */
  function Chunks(written: seq<string>): (es: seq<Event>)
    ensures |es| == |written|
    ensures forall k :: 0 <= k < |written| ==> es[k] == Chunk(written[k])
  {
    seq(|written|, k requires 0 <= k < |written| => Chunk(written[k]))
  }

  /** `streamError.status === 429 || streamError.status === 400`. */
  predicate Retryable(e: JsError) {
    e.status == 429 || e.status == 400
  }

  const AllModelsFailed: string := "All models failed or rate-limited"

  /** The deltas written over a run of the loop, the models tried, and the outcome. */
  datatype StreamRun = StreamRun(written: seq<string>, tried: seq<string>, result: Result<Completion, JsError>)

  /**
   * The retry loop from candidate `i`: a model that finishes gives the text of its own deltas;
   * a retryable error on any model but the last moves on, the next model's text starting
   * afresh; any other error is rethrown. Running off the end raises "All models failed".
   */
  function StreamFrom(cands: seq<string>, replies: nat -> StreamReply, i: nat): (run: StreamRun)
    requires i <= |cands|
    ensures |run.tried| <= |cands| - i && run.tried == cands[i..i + |run.tried|]
    decreases |cands| - i
  {
    if i == |cands| then StreamRun([], [], Failure(Raised(AllModelsFailed)))
    else
      match replies(i)
      case Streamed(ds) => StreamRun(Written(ds), [cands[i]], Success(Completion(cands[i], Concat(ds))))
      case BrokeOff(ds, e) =>
        if Retryable(e) && cands[i] != cands[|cands| - 1] then
          var rest := StreamFrom(cands, replies, i + 1);
          StreamRun(Written(ds) + rest.written, [cands[i]] + rest.tried, rest.result)
        else StreamRun(Written(ds), [cands[i]], Failure(e))
  }

  /**
   * `run`, started at candidate `i`, ends at some model `n`: it tried at least one model, every
   * model before `n` failed with a retryable error, and the result is what model `n` gave,
   * finished text or an error that is not retryable unless `n` is the last candidate.
   */
  predicate EndsAtModel(cands: seq<string>, replies: nat -> StreamReply, i: nat, run: StreamRun) {
    && run.tried != [] && i + |run.tried| <= |cands|
    && var n := i + |run.tried| - 1;
    && (forall j :: i <= j < n ==> replies(j).BrokeOff? && Retryable(replies(j).error))
    && (run.result.Success? ==>
          replies(n).Streamed? && run.result.value == Completion(cands[n], Concat(replies(n).deltas)))
    && (run.result.Failure? ==>
          replies(n).BrokeOff? && run.result.error == replies(n).error
          && (!Retryable(run.result.error) || n == |cands| - 1))
  }

  /**
   * With candidates that do not repeat (as `Fallback.Candidates` builds them), the loop always
   * ends at some model: a model that finished, or the error that the last model tried threw,
   * which is either not retryable or came from the last candidate. "All models failed" is
   * never raised, and every model before the last one tried failed with a retryable error.
   */
  lemma {:induction false} StreamEndsAtAModel(cands: seq<string>, replies: nat -> StreamReply, i: nat)
    requires Distinct(cands) && i < |cands|
    ensures EndsAtModel(cands, replies, i, StreamFrom(cands, replies, i))
    decreases |cands| - i
  {
    DistinctLast(cands, i);
    if replies(i).BrokeOff? && Retryable(replies(i).error) && cands[i] != cands[|cands| - 1] {
      StreamEndsAtAModel(cands, replies, i + 1);
      RetryKeepsEnd(cands, replies, i, StreamFrom(cands, replies, i + 1));
    }
  }

  /** A retryable failure at `i` in front of a run that ends at a model still ends at that model. */
  lemma RetryKeepsEnd(cands: seq<string>, replies: nat -> StreamReply, i: nat, rest: StreamRun)
    requires replies(i).BrokeOff? && Retryable(replies(i).error)
    requires EndsAtModel(cands, replies, i + 1, rest)
    ensures EndsAtModel(cands, replies, i,
                        StreamRun(Written(replies(i).deltas) + rest.written, [cands[i]] + rest.tried, rest.result))
  {
  }

  /**
   * The text kept is that of the model that finished alone; what the client was sent ends
   * with it, after the chunks of the models that broke off mid-stream.
   */
  lemma {:induction false} KeptTextEndsWhatWasSent(cands: seq<string>, replies: nat -> StreamReply, i: nat)
    requires i <= |cands|
    ensures var run := StreamFrom(cands, replies, i);
            run.result.Success? ==> EndsWith(Concat(run.written), run.result.value.text)
    decreases |cands| - i
  {
    if i < |cands| && replies(i).BrokeOff? && Retryable(replies(i).error) && cands[i] != cands[|cands| - 1] {
      KeptTextEndsWhatWasSent(cands, replies, i + 1);
      var rest := StreamFrom(cands, replies, i + 1);
      var early := Written(replies(i).deltas);
      ConcatAppend(early, rest.written);
      if rest.result.Success? {
        EndsWithAppend(Concat(early), Concat(rest.written), rest.result.value.text);
      }
    }
  }

  predicate EndsWith(s: string, suffix: string) {
    |suffix| <= |s| && s[|s| - |suffix|..] == suffix
  }

  lemma EndsWithAppend(a: string, b: string, suffix: string)
    requires EndsWith(b, suffix)
    ensures EndsWith(a + b, suffix)
  {
    assert (a + b)[|a + b| - |suffix|..] == b[|b| - |suffix|..];
  }

  /** When the first candidate finishes, the client was sent exactly the text that is kept. */
  lemma FirstModelSendsKeptText(cands: seq<string>, replies: nat -> StreamReply)
    requires cands != [] && replies(0).Streamed?
    ensures var run := StreamFrom(cands, replies, 0);
            run.result.Success? && Concat(run.written) == run.result.value.text
  {
  }

  /** What the models `i`, `i + 1`, ..., `i + n - 1` wrote, in turn. */
  function WrittenBy(replies: nat -> StreamReply, i: nat, n: nat): seq<string>
    decreases n
  {
    if n == 0 then [] else Written(replies(i).deltas) + WrittenBy(replies, i + 1, n - 1)
  }

  /**
   * The client receives, in order, the deltas that each model tried wrote before it finished
   * or broke off, and nothing else.
   */
  lemma {:induction false} StreamWrittenByTried(cands: seq<string>, replies: nat -> StreamReply, i: nat)
    requires i <= |cands|
    ensures var run := StreamFrom(cands, replies, i);
            run.written == WrittenBy(replies, i, |run.tried|)
    decreases |cands| - i
  {
    if i < |cands| {
      var ds := replies(i).deltas;
      assert WrittenBy(replies, i + 1, 0) == [];
      assert Written(ds) + [] == Written(ds);
      if replies(i).BrokeOff? && Retryable(replies(i).error) && cands[i] != cands[|cands| - 1] {
        StreamWrittenByTried(cands, replies, i + 1);
      }
    }
  }

  /** A run preceded by the deltas written and the models tried before it. */
  function Prepend(written: seq<string>, tried: seq<string>, run: StreamRun): StreamRun {
    StreamRun(written + run.written, tried + run.tried, run.result)
  }

  lemma AppendAssoc<T>(a: seq<T>, b: seq<T>, c: seq<T>)
    ensures a + (b + c) == (a + b) + c
  {
  }

  /**
   * The loop's step at a model that finished, after the deltas `written` and the models
   * `tried` so far: the run ends there, with that model's text.
   */
  lemma FinishedStep(cands: seq<string>, replies: nat -> StreamReply, i: nat, written: seq<string>, tried: seq<string>)
    requires i < |cands| && replies(i).Streamed?
    ensures Prepend(written, tried, StreamFrom(cands, replies, i))
         == StreamRun(written + Written(replies(i).deltas), tried + [cands[i]],
                      Success(Completion(cands[i], Concat(replies(i).deltas))))
  {
  }

  /** The loop's step at a model whose error is rethrown. */
  lemma RethrowStep(cands: seq<string>, replies: nat -> StreamReply, i: nat, written: seq<string>, tried: seq<string>)
    requires i < |cands| && replies(i).BrokeOff?
    requires !(Retryable(replies(i).error) && cands[i] != cands[|cands| - 1])
    ensures Prepend(written, tried, StreamFrom(cands, replies, i))
         == StreamRun(written + Written(replies(i).deltas), tried + [cands[i]], Failure(replies(i).error))
  {
  }

  /** The loop's step at a model that failed with a retryable error and is not the last. */
  lemma RetryStep(cands: seq<string>, replies: nat -> StreamReply, i: nat, written: seq<string>, tried: seq<string>)
    requires i < |cands| && replies(i).BrokeOff?
    requires Retryable(replies(i).error) && cands[i] != cands[|cands| - 1]
    ensures Prepend(written, tried, StreamFrom(cands, replies, i))
         == Prepend(written + Written(replies(i).deltas), tried + [cands[i]], StreamFrom(cands, replies, i + 1))
  {
    var next := StreamFrom(cands, replies, i + 1);
    AppendAssoc(written, Written(replies(i).deltas), next.written);
    AppendAssoc(tried, [cands[i]], next.tried);
  }

  /** Past the last candidate the loop raises "All models failed". */
  lemma ExhaustedStep(cands: seq<string>, replies: nat -> StreamReply, written: seq<string>, tried: seq<string>)
    ensures Prepend(written, tried, StreamFrom(cands, replies, |cands|))
         == StreamRun(written, tried, Failure(Raised(AllModelsFailed)))
  {
    assert written + [] == written && tried + [] == tried;
  }

  /**
   * The inner `for await` loop: every non-empty delta is added to the text and sent, in
   * arrival order.
   */
  method ForwardDeltas(ds: seq<string>) returns (fullText: string, sent: seq<string>)
    ensures fullText == Concat(ds) && sent == Written(ds)
  {
    fullText, sent := "", [];
    var j := 0;
    while j < |ds|
      invariant 0 <= j <= |ds|
      invariant fullText == Concat(ds[..j]) && sent == Written(ds[..j])
    {
      assert ds[..j + 1][..j] == ds[..j];
      var content := ds[j];
      if content != [] {
        fullText := fullText + content;
        sent := sent + [content];
      }
      j := j + 1;
    }
    assert ds[..j] == ds;
  }

  /**
   * The source's loop over the candidates, with the inner loop over the deltas. Where the
   * source sets `streamSuccess`, breaks out and then reads `usedModel` and `fullText`, the
   * model returns that completion from inside the loop; the loop's only other way out, running
   * off the end, raises "All models failed".
   */
  method StreamWithFallback(cands: seq<string>, replies: nat -> StreamReply)
    returns (written: seq<string>, tried: seq<string>, result: Result<Completion, JsError>)
    ensures StreamRun(written, tried, result) == StreamFrom(cands, replies, 0)
  {
    written, tried := [], [];
    var i := 0;
    while i < |cands|
      invariant 0 <= i <= |cands|
      invariant StreamFrom(cands, replies, 0) == Prepend(written, tried, StreamFrom(cands, replies, i))
    {
      var tryModel := cands[i];
      var reply := replies(i);
      var fullText, sent := ForwardDeltas(reply.deltas);
      if reply.Streamed? {
        FinishedStep(cands, replies, i, written, tried);
        return written + sent, tried + [tryModel], Success(Completion(tryModel, fullText));
      }
      if Retryable(reply.error) && tryModel != cands[|cands| - 1] {
        RetryStep(cands, replies, i, written, tried);
        written, tried := written + sent, tried + [tryModel];
        i := i + 1;
        continue;
      }
      RethrowStep(cands, replies, i, written, tried);
      return written + sent, tried + [tryModel], Failure(reply.error);
    }
    ExhaustedStep(cands, replies, written, tried);
    result := Failure(Raised(AllModelsFailed));
  }

  /** The chat request fields the route reads. */
  datatype ChatRequest = ChatRequest(
    message: Option<string>, history: seq<HistoryItem>, chatId: Option<nat>, model: Option<string>,
    image: Option<ImageFile>)

  /** `!message`: absent or empty. */
  predicate Missing(message: Option<string>) {
    message.None? || message.value == []
  }

  /** `model || CHAT_MODEL`. */
  function SelectedModel(cfg: Config, model: Option<string>): string {
    OrDefault(model, cfg.chatModel)
  }

  /**
   * The title of a new chat on this route: one request to the generation model, whose reply
   * is cleaned up; on any error the title cut from the message.
   */
  function StreamTitle(message: string, reply: Reply): (t: string)
    ensures reply.Refused? ==> t == DefaultTitle(message)
    ensures reply.Answered? ==> t == CleanTitle(reply.text) && |t| <= MaxTitle
  {
    match reply
    case Answered(text) => CleanTitle(text)
    case Refused(_) => DefaultTitle(message)
  }

  /** The request asking the generation model for a title. */
  function TitleCall(cfg: Config, message: string): Call {
    Call(cfg.generationModel, SingleUserMessage(TitlePrompt(message)))
  }

  /**
   * The route: validation, the relay loop over `Candidates`, then, for a signed-in user,
   * persistence of the exchange (with a generated title when a chat is created), then the
   * closing event. `titleReply` is the reply to the title request, made only when a chat is
   * created.
   */
  method SendMessageStream(db: Database, cfg: Config, user: Option<nat>, req: ChatRequest,
                           replies: nat -> StreamReply, titleReply: Reply, dbOk: bool)
    returns (response: StreamResponse, calls: seq<Call>)
    requires db.Valid()
    modifies db
    ensures db.Valid()
    ensures db.activities == old(db.activities)
    ensures Missing(req.message) ==>
              response == Rejected(400, "Message is required") && calls == [] && db.chats == old(db.chats)
    ensures !Missing(req.message) && !cfg.apiKeySet ==>
              response == Rejected(500, "OPENROUTER_API_KEY is not configured") && calls == [] && db.chats == old(db.chats)
    ensures !Missing(req.message) && cfg.apiKeySet ==>
              var message := req.message.value;
              var run := StreamFrom(Candidates(SelectedModel(cfg, req.model), req.image.Some?), replies, 0);
              var prompt := BuildPrompt(req.history, message, req.image);
              && response.Stream?
              && (run.result.Failure? ==>
                    && response == Stream(Chunks(run.written), FailureEnding(run.written, run.result.error))
                    && calls == CallsTo(run.tried, prompt) && db.chats == old(db.chats))
              && (run.result.Success? ==>
                    && response.ending == Closed
                    && |response.events| == |run.written| + 1
                    && response.events[..|run.written|] == Chunks(run.written)
                    && var closing := response.events[|run.written|];
                    && closing.Done?
                    && (user.None? ==>
                          closing.chatId == req.chatId && db.chats == old(db.chats) && calls == CallsTo(run.tried, prompt))
                    && (user.Some? && req.chatId.Some? ==> calls == CallsTo(run.tried, prompt))
                    && (user.Some? && req.chatId.None? ==> calls == CallsTo(run.tried, prompt) + [TitleCall(cfg, message)])
                    && (user.Some? ==>
                          SaveEffect(old(db.chats), old(db.nextChatId), db.chats, closing.chatId, user.value, req.chatId,
                                     StreamTitle(message, titleReply), message, run.result.value.text, dbOk)))
  {
    if Missing(req.message) {
      return Rejected(400, "Message is required"), [];
    }
    if !cfg.apiKeySet {
      return Rejected(500, "OPENROUTER_API_KEY is not configured"), [];
    }
    var message := req.message.value;
    var prompt := BuildPrompt(req.history, message, req.image);
    var cands := Candidates(SelectedModel(cfg, req.model), req.image.Some?);
    var written, tried, result := StreamWithFallback(cands, replies);
    calls := CallsTo(tried, prompt);
    if result.Failure? {
      return Stream(Chunks(written), FailureEnding(written, result.error)), calls;
    }
    var savedChatId := req.chatId;
    if user.Some? {
      var title := "";
      if req.chatId.None? {
        calls := calls + [TitleCall(cfg, message)];
        title := StreamTitle(message, titleReply);
      }
      savedChatId := db.SaveExchange(user.value, req.chatId, title, message, result.value.text, dbOk);
    }
    response := Stream(Chunks(written) + [Done(savedChatId)], Closed);
  }
}
