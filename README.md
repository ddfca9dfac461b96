# Room To Grow: the tutor's chat relay and study tools in Dafny

Room To Grow is a tutoring web application. A student chats with an AI tutor, and the
conversation can be turned into flash cards or a quiz. This project models the decision
logic of the application and proves what it guarantees.

**The OpenRouter chat controller.**
- It builds the ordered list of candidate models for a request.
- On the streaming route, it walks that list, forwarding every non-empty delta as an event.
  A 429 or 400 moves it on to the next candidate.
- On the non-streaming routes, it falls back to a fixed list, and only on a rate limit.
- It assembles the prompt from the history and the new message.
- It builds the default title of a new chat and cleans a model-generated one.
- It stores each exchange for a signed-in user.
- It strips code fences from generated JSON.

**The earlier Gemini controller.**
- It maps the history onto SDK chat turns.
- It builds the plain-text transcript.
- It extracts the reply text and selects the error `code` and `details`.

**The client state machines.**
- The quiz dialog and the flash-card dialog.
- The typewriter reveal of a tutor message.
- The optimistic send of the chat page.
- The model picker.

**The server's small pieces.**
- The upload filter, the size limit and the route table.
- The GitHub sign-in's find-or-create of a user.

Provider calls are not made. A request's k-th call is given as an input: `replies(k)` is
either what the model answered or the error it threw. Every retry loop then becomes a
deterministic function of those replies. Each loop is written as a Dafny method with its
loop invariants and proved equal to that function. The chats and activities of the database
are maps from id to record, held in a `Database` class. Each id comes from a counter, and one
flag says whether the database call succeeds.

### Where the model follows the code rather than its comments or documentation

- **Default title length.** The default title of a long first message is its first 50
  characters followed by `...`, so it can be 53 characters long.
- **Quote stripping.** Title cleanup removes one quote at each end, not every surrounding
  quote.
- **"All models failed" is unreachable.** The streaming loop never raises this error: the
  last candidate's error is rethrown instead. `StreamRelay.StreamEndsAtAModel` proves this
  for the repeat-free lists that `Fallback.Candidates` builds.
- **A stream that fails after sending chunks is left open.** The first chunk sends the
  response headers. When a later candidate fails, the error handler finds `headersSent` set
  and tries a JSON 500 response, which cannot be sent any more. The client then gets neither
  an error event nor the end of the stream. `StreamRelay.FailureEnding` records this.
- **Non-streaming fallback.** The non-streaming routes fall back only on a 429 from the
  primary model. They always use the text-only fallback list, image or not.
- **The chat route's skip.** The chat route's fallback walk skips the configured chat model,
  not the model that failed (see Findings).
- **The quiz's "Great job" threshold.** The threshold is the floating-point comparison
  `score >= length * 0.7`. With whole-number scores it is the same as
  `10 * score >= 7 * length`, which is what the model states.

## Model

| member | source | states |
|---|---|---|
| Text.TrimStart | server/controllers/chatControllerOpenRouter.js:617 | the result is a suffix of the input, does not start with whitespace, and only whitespace was dropped |
| Text.TrimEnd | server/controllers/chatControllerOpenRouter.js:617 | the result is a prefix of the input, does not end with whitespace, and only whitespace was dropped |
| Text.Trim | server/controllers/chatControllerOpenRouter.js:617 | `trim()` gives a string with no whitespace at either end, never longer than the input |
| Text.TrimIsSlice | server/controllers/chatControllerOpenRouter.js:367 | the trimmed text is one contiguous slice of the input, and everything cut on either side is whitespace |
| Text.TrimOfTrimmed | server/controllers/chatControllerOpenRouter.js:617 | trimming text without whitespace at its ends changes nothing |
| Text.Take | server/controllers/chatControllerOpenRouter.js:184 | `substring(0, n)` is a prefix of length min(n, length) |
| Text.DeleteMarkers | server/controllers/chatControllerOpenRouter.js:617 | a global `replace(/M\n?/g, '')` never lengthens the text |
| Text.DeleteMarkersSkipsPlainText | server/controllers/chatControllerOpenRouter.js:617 | text in which no marker can start passes through the deletion unchanged |
| Text.DeleteMarkersKeepsShortText | server/controllers/chatControllerOpenRouter.js:617 | text shorter than the marker is left alone |
| Text.NoFenceAfterDeletion | server/controllers/chatControllerOpenRouter.js:617 | after every "```" has been deleted, no "```" remains |
| Text.StripCodeFences | server/controllers/chatControllerOpenRouter.js:617 | the cleaned text is trimmed and never longer than the reply |
| Text.NoFenceAfterStrip | server/controllers/chatController.js:159 | no code-fence marker survives the cleanup |
| Text.FencedPayloadRoundTrip | server/controllers/chatControllerOpenRouter.js:617 | a trimmed, backtick-free JSON payload wrapped in a ```json fence comes back exactly |
| Text.MarkerAndNewlineDeleted | server/controllers/chatController.js:232 | a marker and the newline after it are deleted together |
| Text.Join | server/controllers/chatController.js:130 | joining no items gives the empty string |
| Text.JoinSnoc | server/controllers/chatController.js:130 | joining one more item appends the separator and that item |
| Errors.Raised | server/controllers/chatController.js:68 | an error raised by the program has no status and no code, carries its message, and renders as "Error", or "Error: " and the message when there is one |
| Errors.CodeOf | server/controllers/chatController.js:84 | the code is the status when there is one, else the error's code, else UNKNOWN exactly when both are absent |
| Errors.DetailsOf | server/controllers/chatController.js:87 | the details are never empty: the message, else the rendered error, else "Unknown error" |
| Errors.MessageOf | server/controllers/chatControllerOpenRouter.js:651 | the details are the error's message when it is non-empty and "Unknown error" otherwise; never empty |
| Conversation.TranscriptLines | server/controllers/chatController.js:130 | one line per history item, in order, each the item's speaker and content |
| Conversation.TranscriptSnoc | server/controllers/chatController.js:130 | a further item adds a newline and its own line at the end of the transcript |
| Conversation.TranscriptBase | server/controllers/chatController.js:193 | no history gives an empty transcript; a one-item history gives just that item's line |
| GeminiController.ToSdkHistory | server/controllers/chatController.js:49-52 | history is mapped one-to-one, keeping role and content, the content wrapped as a single text part |
| GeminiController.SdkHistoryRoundTrip | server/controllers/chatController.js:49-52 | every history item can be read back from its SDK turn |
| GeminiController.ResponseText | server/controllers/chatController.js:65-69 | succeeds exactly when candidates[0].content.parts[0].text exists and is non-empty, and returns that text; otherwise the "Unexpected response structure" error |
| GeminiController.SingleCandidateText | server/controllers/chatController.js:152-156 | a single non-empty text reply is extracted as is; an empty one counts as malformed |
| GeminiController.SendMessage | server/controllers/chatController.js:33-92 | a missing message is a 400 with no SDK call; a missing key is a 500 with no call; otherwise the call carries the mapped history and the message; the answer is given exactly when the SDK's text could be extracted; with a message and a key, a thrown SDK error is always the 500 with its code and details, and a malformed response the 500 with code UNKNOWN and the structure message |
| GeminiController.MalformedResponseIsUnknown | server/controllers/chatController.js:64-92 | a malformed SDK response is answered with code UNKNOWN and the structure message |
| GeminiController.GenerateArtifact | server/controllers/chatController.js:117-173 | without a key no prompt is sent and the 500 names the missing key; otherwise the transcript prompt is sent, the missing-key answer never occurs, and the parsed object is answered exactly when the text was extracted and parses after fence stripping; a failure carries the route's error text, with the error's message as details (else "Unknown error") for the SDK error, the structure error or the parse error |
| GeminiController.FencedReplyIsParsed | server/controllers/chatController.js:152-164 | a reply wrapping a JSON document in a ```json fence is answered with exactly what the document parses to |
| Fallback.OrDefault | server/controllers/chatControllerOpenRouter.js:27 | the setting when present and non-empty, otherwise the fallback; an empty result only from an empty fallback |
| Fallback.ConfigFromEnv | server/controllers/chatControllerOpenRouter.js:27-28 | each model is its setting when that is present and non-empty, and the free Gemini model otherwise (absent or empty), so never empty; the key counts as set exactly when it is non-empty |
| Fallback.Without | server/controllers/chatControllerOpenRouter.js:122 | the filter keeps exactly the other models, keeps a list repeat-free, and removes one element exactly when the id was in the list; a one-model list is kept or emptied |
| Fallback.WithoutKeepsOrder | server/controllers/chatControllerOpenRouter.js:122 | the filter keeps list order: filtering a concatenation concatenates the filtered parts |
| Fallback.Candidates | server/controllers/chatControllerOpenRouter.js:113-122 | the candidates start with the selected model, are repeat-free, hold exactly the selected model and the fallback list for the request (the vision list when an image is attached), and their length follows; after the selected model come the other fallback models in list order |
| Fallback.DistinctLast | server/controllers/chatControllerOpenRouter.js:151 | in a repeat-free list, "not the last model" holds exactly at the positions before the last |
| Fallback.FallbackWalk | server/controllers/chatControllerOpenRouter.js:587-606 | the walk calls only list models other than the skipped one, at most one call per list position; every call but the last was refused; an answer is the last model's reply |
| Fallback.FallbackWalkInOrder | server/controllers/chatControllerOpenRouter.js:587-606 | the walk calls the list's models other than the skipped one in list order, a prefix of them; when none answers it has called all of them |
| Fallback.WalkFromStart | server/controllers/chatControllerOpenRouter.js:587-606 | from call 1, the walk calls the first n non-skipped models, each before the last refused; it has an answer exactly when the n-th call answered, and that answer is the n-th model with its reply; with no answer every non-skipped model was called and refused |
| Fallback.FallbackWalkDistinct | server/controllers/chatControllerOpenRouter.js:587-606 | a repeat-free list is walked without calling any model twice |
| Fallback.CompleteOnce | server/controllers/chatControllerOpenRouter.js:574-612 | the selected model is called first and its answer (even empty) is used; a non-429 error is rethrown at once; after a 429 the answer is a non-empty reply of the last model called; any failure is the primary error |
| Fallback.AfterRateLimitIsWalk | server/controllers/chatControllerOpenRouter.js:587-612 | after a 429 the calls are the selected model then the walk; the request succeeds exactly when the walk found a non-empty answer, which is then the completion, and otherwise rethrows the primary error |
| Fallback.CompleteOnceAfterRateLimit | server/controllers/chatControllerOpenRouter.js:574-612 | after a 429 the calls are the selected model followed by the non-skipped list models in order, each refused before the next, up to the first that answers or the end of the list; success exactly when that answer is non-empty, with that model and text; otherwise the primary error |
| Fallback.TryFallbacks | server/controllers/chatControllerOpenRouter.js:587-606 | the `for` over the fallback list, skipping the selected model and stopping at the first answer, makes exactly the calls and finds exactly the answer of `FallbackWalk` |
| Fallback.CompleteWithFallback | server/controllers/chatControllerOpenRouter.js:570-612 | the primary call and the `for` loop over the fallback list make exactly the calls, and reach exactly the outcome, of `CompleteOnce` |
| Fallback.SkippingSelectedNeverRepeats | server/controllers/chatControllerOpenRouter.js:588 | when the skipped model is the selected one, no model is called twice |
| Prompt.ProviderRole | server/controllers/chatControllerOpenRouter.js:107 | the role is assistant exactly for 'model', user otherwise, never system |
| Prompt.UserBody | server/controllers/chatControllerOpenRouter.js:88-101 | the user turn carries the message, and an image part exactly when an image was attached |
| Prompt.HistoryMessages | server/controllers/chatControllerOpenRouter.js:106-109 | one message per history item, with mapped role and unchanged content |
| Prompt.BuildPrompt | server/controllers/chatControllerOpenRouter.js:104-111 | the prompt has history length + 2 messages: the system instruction first, then each history item mapped, then the user turn; only the first is a system message |
| Prompt.CallsTo | server/controllers/chatControllerOpenRouter.js:127-129 | each model tried is sent the same messages, in order |
| Prompt.PromptKeepsHistory | server/controllers/chatControllerOpenRouter.js:104-111 | for a client history of 'user'/'model' items, the history can be read back out of the prompt unchanged |
| Titles.DefaultTitle | server/controllers/chatControllerOpenRouter.js:184 | the message itself when at most 50 characters, otherwise its first 50 characters plus "...", so at most 53 characters |
| Titles.TitlePrompt | server/controllers/chatControllerOpenRouter.js:335 | the title request is exactly the fixed head, then the student's message, then the fixed tail |
| Titles.StripQuotes | server/controllers/chatControllerOpenRouter.js:191 | at most one leading and one trailing quote (double or single) are removed |
| Titles.CleanTitle | server/controllers/chatControllerOpenRouter.js:367 | a cleaned title has at most 50 characters |
| Titles.CleanTitleIsSlice | server/controllers/chatControllerOpenRouter.js:367 | a cleaned title is a contiguous piece of the model's reply, cut out without any other change |
| Titles.CleanTitleKeepsCleanTitle | server/controllers/chatControllerOpenRouter.js:367 | a reply that is already a trimmed, unquoted title of at most 50 characters is kept as is |
| Titles.StripQuotesOfQuoted | server/controllers/chatControllerOpenRouter.js:191 | one pair of surrounding quotes is removed, whatever the text inside holds |
| Titles.CleanTitleUnquotes | server/controllers/chatControllerOpenRouter.js:191 | a quoted title of at most 50 characters comes back without its quotes |
| ChatStore.Exchange | server/controllers/chatControllerOpenRouter.js:320-323 | an exchange is exactly two turns: the user's message, then the model's answer |
| ChatStore.AppendExchange | server/controllers/chatControllerOpenRouter.js:318-325 | an owned chat gains exactly the two turns at its end, keeping owner, title and earlier turns; a missing or foreign chat and every other chat are unchanged |
| ChatStore.TwoExchangesInOrder | server/controllers/chatControllerOpenRouter.js:176-180 | two exchanges on one chat leave their four turns in request order |
| ChatStore.Database.AppendToChat | server/controllers/chatControllerOpenRouter.js:318-325 | the chats become `AppendExchange` of the old chats when the database answers, and stay as they were otherwise; activities and counters are untouched |
| ChatStore.Database.SaveExchange | server/controllers/chatControllerOpenRouter.js:312-391 | with a chat id, the exchange is appended to that chat if it is the owner's, and the id is echoed; without one, a chat holding just this exchange is created under a fresh id that is reported; a database failure changes nothing |
| ChatStore.Database.CreateChat | server/controllers/chatControllerOpenRouter.js:374-382 | the new chat gets a fresh id and holds the title and the two turns; on failure nothing changes and no id is reported |
| ChatStore.Database.CreateActivity | server/controllers/chatControllerOpenRouter.js:625-631 | the activity gets a fresh id; on failure nothing changes; chats are untouched |
| StreamRelay.ConcatAppend | server/controllers/chatControllerOpenRouter.js:137 | accumulating the deltas of two runs one after the other gives the concatenation of their texts |
| StreamRelay.Written | server/controllers/chatControllerOpenRouter.js:134-140 | only non-empty deltas become events, and they spell the same text as all the deltas |
| StreamRelay.Chunks | server/controllers/chatControllerOpenRouter.js:138 | each written delta is exactly one `{content, done: false}` event, in order |
| StreamRelay.StreamFrom | server/controllers/chatControllerOpenRouter.js:124-164 | the models tried are consecutive candidates from the current one, never more than remain |
| StreamRelay.StreamWrittenByTried | server/controllers/chatControllerOpenRouter.js:124-164 | what the client receives is exactly the deltas of each model tried, in the order they were tried |
| StreamRelay.StreamEndsAtAModel | server/controllers/chatControllerOpenRouter.js:147-164 | with repeat-free candidates the loop ends at a model: every earlier model failed with 429/400, a success is the text of the last model's own deltas, a failure is that model's error, which is not retryable or comes from the last candidate; "All models failed" never occurs |
| StreamRelay.KeptTextEndsWhatWasSent | server/controllers/chatControllerOpenRouter.js:153 | the stored text, reset at each retry, is exactly the end of what the client was sent |
| StreamRelay.FirstModelSendsKeptText | server/controllers/chatControllerOpenRouter.js:134-145 | when the first candidate finishes, the client was sent exactly the text that is kept |
| StreamRelay.ForwardDeltas | server/controllers/chatControllerOpenRouter.js:134-140 | the inner loop accumulates all deltas and sends exactly the non-empty ones, in order |
| StreamRelay.StreamWithFallback | server/controllers/chatControllerOpenRouter.js:113-164 | the loop over the candidates writes, tries and ends exactly as `StreamFrom` says |
| StreamRelay.FailureEnding | server/controllers/chatControllerOpenRouter.js:215-223 | a failed stream gets an `{error}` event carrying the message exactly when nothing was written yet; otherwise it is left open |
| StreamRelay.StreamTitle | server/controllers/chatControllerOpenRouter.js:184-194 | the cleaned generated title, at most 50 characters, or the default title when the request threw |
| StreamRelay.SendMessageStream | server/controllers/chatControllerOpenRouter.js:50-224 | a missing message is a 400 and a missing key a 500, with no call and no change; otherwise the chunk events of the loop are sent; a failure ends the stream as `FailureEnding` says and stores nothing; a success adds one closing event with the chat id and, for a signed-in user, stores the exchange as `SaveEffect` says, asking for a title only when a chat is created |
| ChatRelay.SynthesizedTitle | server/controllers/chatControllerOpenRouter.js:332-372 | the cleaned title from the title request with fallback, at most 50 characters, or the default title when it failed |
| ChatRelay.TitleAttemptDistinct | server/controllers/chatControllerOpenRouter.js:349-350 | the title request never calls a model twice |
| ChatRelay.SelectedModelCalledTwice | server/controllers/chatControllerOpenRouter.js:262-303 | as written, selecting Llama with the default chat model and a rate limit everywhere calls Llama, Llama, Hermes and fails with the first error |
| ChatRelay.IntendedChatAttempt | server/controllers/chatControllerOpenRouter.js:278 | skipping the model that failed, no model is called twice and the selected model comes first |
| ChatRelay.IntendedAgreesOnDefault | server/controllers/chatControllerOpenRouter.js:278 | when no model is selected, the corrected walk and the walk as written coincide |
| ChatRelay.SendMessage | server/controllers/chatControllerOpenRouter.js:231-413 | a missing message is a 400 and a missing key a 500, with no call; otherwise the prompt goes to the models of the chat attempt; a failure answers its code and details and stores nothing; a success answers the text and, for a signed-in user, stores the exchange as `SaveEffect` says, with a generated title only for a new chat |
| Artifacts.GenerationAttempt | server/controllers/chatControllerOpenRouter.js:571-612 | the requested model, or else the configured generation model, is called first, and no model is called twice |
| Artifacts.ActivityTitle | server/controllers/chatControllerOpenRouter.js:629 | the parsed title when present, otherwise "Flash Cards (date)" or "Quiz (date)"; never empty |
| Artifacts.Outcome | server/controllers/chatControllerOpenRouter.js:608-653 | succeeds exactly when the request produced text that parses after fence stripping, with that value; a request failure gives the provider error's message; details are never empty |
| Artifacts.FencedReplyIsParsed | server/controllers/chatControllerOpenRouter.js:617-620 | a first reply wrapping a JSON document in a ```json fence yields exactly what the document parses to |
| Artifacts.Generate | server/controllers/chatControllerOpenRouter.js:541-654 | without a key nothing is called or stored; a failure answers the route's error text and details and stores nothing; a success answers the parsed value and stores an activity under a fresh id exactly when a signed-in user names a chat and the database answers; chats are never touched |
| QuizModal.CountTrue | client/src/components/QuizModal.tsx:33-37 | the correct answers never outnumber the answers, and equal them exactly when every answer was correct |
| QuizModal.CountTrueSnoc | client/src/components/QuizModal.tsx:34-36 | recording one more answer adds one to the count exactly when it is correct |
| QuizModal.FinalVerdict | client/src/components/QuizModal.tsx:171-173 | Perfect exactly at a full score; otherwise Great job exactly when `10 * score >= 7 * length`; otherwise Keep practicing |
| QuizModal.VerdictMonotone | client/src/components/QuizModal.tsx:171-173 | a higher score never earns a lower verdict |
| QuizModal.QuizSession.constructor | client/src/components/QuizModal.tsx:18-22 | the first question, nothing selected, explanation hidden, score 0, no answers |
| QuizModal.QuizSession.IsLastQuestion | client/src/components/QuizModal.tsx:25 | holds exactly on the last question |
| QuizModal.QuizSession.IsFinished | client/src/components/QuizModal.tsx:56 | holds exactly when the last question is shown and answered |
| QuizModal.QuizSession.ShowsNextButton | client/src/components/QuizModal.tsx:136 | the Next button shows exactly when an answer is selected and the question is not the last |
| QuizModal.QuizSession.Result | client/src/components/QuizModal.tsx:171-173 | Perfect exactly when every question was answered correctly; otherwise Great job exactly when 10 × correct ≥ 7 × length |
| QuizModal.QuizSession.SelectAnswer | client/src/components/QuizModal.tsx:27-38 | a second selection changes nothing; a first one keeps the choice, shows the explanation, appends one answer and adds one to the score exactly when it is correct; the score stays the count of correct answers |
| QuizModal.QuizSession.Next | client/src/components/QuizModal.tsx:40-46 | advances and clears the selection only before the last question; the index stays on a question; score and answers are kept |
| QuizModal.QuizSession.Restart | client/src/components/QuizModal.tsx:48-54 | every field returns to its initial value |
| FlashCardModal.Step | client/src/components/FlashCardModal.tsx:22-38 | next advances below the last card and prev goes back above the first, each showing the question side; otherwise nothing changes; flip turns the card |
| FlashCardModal.RunStaysOnDeck | client/src/components/FlashCardModal.tsx:17-34 | on a non-empty deck, any sequence of handler calls keeps the index on a card |
| FlashCardModal.FlipTwice | client/src/components/FlashCardModal.tsx:36-38 | flipping twice shows the same side again |
| FlashCardModal.NextThenPrev | client/src/components/FlashCardModal.tsx:22-34 | next then prev returns to the same card, question side up, except on the last card |
| FlashCardModal.Subtitle | client/src/components/FlashCardModal.tsx:57 | the given title when present and non-empty, "Study Session" when absent or empty |
| FlashCardModal.FlashCardDeck.constructor | client/src/components/FlashCardModal.tsx:17-18 | the first card, question side up |
| FlashCardModal.FlashCardDeck.PrevDisabled | client/src/components/FlashCardModal.tsx:106 | Previous is disabled exactly where pressing it would change nothing |
| FlashCardModal.FlashCardDeck.NextDisabled | client/src/components/FlashCardModal.tsx:133 | Next is disabled exactly where pressing it would change nothing |
| FlashCardModal.FlashCardDeck.HandleNext | client/src/components/FlashCardModal.tsx:22-27 | the view becomes `Step(next)` of the old view and stays on the deck |
| FlashCardModal.FlashCardDeck.HandlePrev | client/src/components/FlashCardModal.tsx:29-34 | the view becomes `Step(prev)` of the old view and stays on the deck |
| FlashCardModal.FlashCardDeck.HandleFlip | client/src/components/FlashCardModal.tsx:36-38 | the view becomes `Step(flip)` of the old view |
| ChatMessage.Revealed | client/src/components/ChatMessage.tsx:23 | after k ticks exactly k characters are shown, a prefix of the content |
| ChatMessage.RevealGrows | client/src/components/ChatMessage.tsx:21-24 | each tick shows one more character of the same text |
| ChatMessage.MessageBubble.constructor | client/src/components/ChatMessage.tsx:11-12 | nothing shown, and typing exactly for a model message |
| ChatMessage.MessageBubble.Mount | client/src/components/ChatMessage.tsx:15-35 | a model message restarts the reveal from nothing with typing on; a user message is shown whole at once |
| ChatMessage.MessageBubble.Tick | client/src/components/ChatMessage.tsx:21-29 | before the end, one more character is shown; at the end the timer stops, typing ends and the whole content is shown |
| ChatMessage.MessageBubble.Play | client/src/components/ChatMessage.tsx:19-29 | after content length + 1 ticks the whole content is shown, typing has ended and the timer stopped; the text shown after tick j is the first j + 1 characters, and the whole content after the last tick |
| ChatPage.HistoryOf | client/src/pages/Chat.tsx:42 | one `{role, content}` item per message, in order |
| ChatPage.ReplyText | client/src/pages/Chat.tsx:47 | the server's message when present, "..." otherwise |
| ChatPage.ErrorText | client/src/pages/Chat.tsx:52 | the error's message when non-empty, the default text otherwise; never empty |
| ChatPage.ChatScreen.constructor | client/src/pages/Chat.tsx:11-14 | no messages, empty input, not loading, no error |
| ChatPage.ChatScreen.Submit | client/src/pages/Chat.tsx:23-43 | blank input or a pending send changes nothing and sends nothing; otherwise the trimmed text is appended as a user message, the input and error are cleared, loading is set, and the request carries the history with the new message |
| ChatPage.ChatScreen.Send | client/src/pages/Chat.tsx:27-43 | the accepted branch: the given text is appended as a user message, the input and error are cleared, loading is set, and the request carries the earlier messages followed by the new one |
| ChatPage.ChatScreen.Settle | client/src/pages/Chat.tsx:43-55 | a reply appends exactly one model message and an error none (setting the error text); loading ends either way |
| ChatPage.HistoryEndsWithNewMessage | client/src/pages/Chat.tsx:42 | the history sent is every earlier message in order, followed by the new one |
| ModelSelector.CatalogueIdsDistinct | client/src/components/ModelSelector.tsx:16-77 | the six catalogue ids are pairwise distinct |
| ModelSelector.Find | client/src/components/ModelSelector.tsx:87 | `find` gives the first entry with the id, or none exactly when no entry has it |
| ModelSelector.CurrentModel | client/src/components/ModelSelector.tsx:87 | the current model is a catalogue entry: the one with the selected id if any, else the first |
| ModelSelector.CurrentModelOfEntry | client/src/components/ModelSelector.tsx:144-148 | choosing any catalogue entry makes exactly that entry current |
| ModelSelector.UnknownIdShowsDefault | client/src/components/ModelSelector.tsx:87 | an id outside the catalogue shows the free Gemini model |
| ModelSelector.PricingLabel | client/src/components/ModelSelector.tsx:99-107 | each of the four tiers maps to its badge, each in both directions, and anything else to the empty string |
| ModelSelector.PricingColor | client/src/components/ModelSelector.tsx:89-97 | each of the four tiers maps to its class, each in both directions, and anything else to the muted class |
| ModelSelector.CatalogueHasLabels | client/src/components/ModelSelector.tsx:117-118 | every catalogue entry shows a non-empty badge |
| ModelSelector.Dropdown.constructor | client/src/components/ModelSelector.tsx:85 | the list starts closed |
| ModelSelector.Dropdown.Toggle | client/src/components/ModelSelector.tsx:112 | the button flips the list open or closed |
| ModelSelector.Dropdown.CloseFromBackdrop | client/src/components/ModelSelector.tsx:130 | a backdrop click closes the list |
| ModelSelector.Dropdown.Choose | client/src/components/ModelSelector.tsx:145-148 | choosing reports exactly the entry's id and closes the list |
| ChatRoutes.FileFilter | server/routes/chatRoutes.js:22-29 | the callback is called exactly once; it accepts exactly the image mimetypes, with no error, and rejects the rest with the "images only" error |
| ChatRoutes.SizeLimit | server/routes/chatRoutes.js:19-21 | the limit is 10485760 bytes; a file of that size passes and one byte more is refused |
| ChatRoutes.FirstMatch | server/routes/chatRoutes.js:33-54 | dispatch picks the first registered route that matches, or none exactly when no route matches |
| ChatRoutes.ListingsAreNotChatIds | server/routes/chatRoutes.js:44-54 | GET /history and /activities reach their listing handlers, with no chat id |
| ChatRoutes.OtherSegmentsAreChatIds | server/routes/chatRoutes.js:50-54 | in the exact-match route table, any other single segment is a chat id for GET and DELETE; the case-insensitive matching of Express is left out, so `/History` is not covered |
| ChatRoutes.OrderMatters | server/routes/chatRoutes.js:44-51 | with `/:chatId` registered first, /history would be taken as a chat id |
| Auth.FirstValue | server/config/auth.js:25-27 | `list?.[0]?.value`: the first entry's value exactly when there is one |
| Auth.NewUser | server/config/auth.js:21-28 | a user is created exactly when the profile has a non-empty id and a non-empty username (the schema requires both), with githubId = profile id, the username, and the first email and photo |
| Auth.FindByGithubId | server/config/auth.js:13 | finds a user with the GitHub id, or none exactly when no user has it |
| Auth.VerifyLeavesOneUser | server/config/auth.js:13-30 | after a successful sign-in the GitHub id belongs to exactly one user, ids stay unique, and signing in again changes nothing |
| Auth.UserDirectory.Verify | server/config/auth.js:10-34 | a known id signs in its user and creates nothing; an unknown one creates exactly one user from the profile; a database failure or a profile without an id or a username gives `done(error, null)` and changes nothing |

## Left out

- Provider SDK calls (OpenRouter, Gemini): the model never calls them. Each request's replies, or the deltas and error of each streamed call, are parameters.
- A reply whose `content` is null: the model treats every answer as a string, so the property access that would throw on null is not modelled.
- SSE framing, response headers and JSON serialisation: only the sequence of events and how the stream ends are modelled.
- What happens after the error handler's failed JSON 500 response, which is an unhandled rejection: the model stops at `LeftOpen`.
- Base64 encoding of the uploaded image: the image travels as its mimetype and bytes.
- Mongoose, MongoDB and ObjectId casting: the database is the `Database` class, with counter-issued `nat` ids.
  - A malformed chat id behaves like an id that was not found.
  - One `ok`/`dbOk` flag per route stands for whether the database answers.
- `JSON.parse` is a parameter. The shape of quiz and flash-card items is not checked, as in the source.
- `toLocaleDateString` is the `today` parameter.
- The listing, lookup and delete routes (`getChatHistory`, `getChatById`, `deleteChat`, `getActivities`) and `newChat` are not modelled. They are single database queries with no decision logic; only their place in the route table is modelled.
- The multipart body parsing of the streaming route (`JSON.parse` of the history) is not modelled: the request arrives already parsed.
- Timer periods, animations, scrolling and React batching are left out. State updates are modelled as sequential steps, and a tick is one call of `Tick`.
- Random message ids on the chat page, and the `ChatAPI` fetch wrapper (the request is returned instead of sent).
- The ElevenLabs speech controller and the reset script are not part of this model.
- Express matches routes case-insensitively and ignores a trailing slash; the route table here matches paths exactly.
- QuizModal.QuizSession.constructor: the dialog is modelled only for a non-empty quiz. The source fails on its first render when the quiz is empty.
- FlashCardModal.FlashCardDeck.constructor: the dialog is modelled only for a non-empty deck, for the same reason.
- Text.DeleteMarkers: its own contract gives only a length bound. What it removes is stated by `Text.NoFenceAfterDeletion`, `Text.FencedPayloadRoundTrip` and the other lemmas about it.
- Titles.CleanTitle: its own contract gives only the 50-character bound. The lemmas beside it state what it keeps.
- Titles.CleanTitle: lengths count Unicode characters, where JavaScript's `substring` counts UTF-16 code units, so a title with characters outside the Basic Multilingual Plane is cut at a different place.
- Titles.DefaultTitle: the 50-character cut counts Unicode characters, not UTF-16 code units as JavaScript does (26 emoji are 52 code units, so JavaScript cuts them and the model does not).
- Text.Take: counts Unicode characters, not UTF-16 code units; it is exact only for text in the Basic Multilingual Plane.
- ChatMessage.Revealed: reveals one Unicode character per tick where `slice` reveals one UTF-16 code unit, so an emoji appears in one tick rather than two.
- ChatMessage.MessageBubble.Tick: the index and the content length count Unicode characters, not UTF-16 code units.
- ChatMessage.MessageBubble.Play: the number of ticks is the length in Unicode characters, not in UTF-16 code units.
- Auth.UserDirectory.Verify: a failure of `findOne` and a failure of `create` are one flag. The schema's unique index on `githubId` is kept as the class invariant instead of being checked by the store.

## Findings

| source | as written | input that shows it | evidently intended | confidence | as-written member | corrected member |
|---|---|---|---|---|---|---|
| server/controllers/chatControllerOpenRouter.js:278 | the chat route's fallback loop skips `CHAT_MODEL`, although its comment says it skips "the one that failed"; the generation routes skip `selectedModel` | `CHAT_MODEL` at its default, `model` = the Llama id, every call rate limited: Llama is called, then Llama again, then Hermes, and the first error is returned | skip the selected model that was rate limited, so no model is asked twice | not executed | ChatRelay.SelectedModelCalledTwice | ChatRelay.IntendedChatAttempt |

`ChatRelay.SendMessage` keeps the behaviour as written. The corrected walk is the one the
generation routes already use (`Artifacts.GenerationAttempt`). The two agree whenever no
model is selected (`ChatRelay.IntendedAgreesOnDefault`).
