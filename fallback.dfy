/**
 * Model selection and the non-streaming fallback walk of the OpenRouter controller: the
 * configured models, the fixed fallback lists, the ordered candidate list of the streaming
 * route, and the "primary model first, then the fallback list on a rate limit" strategy used
 * by the chat, title and generation requests.
 *
 * A provider call is not performed: `replies(k)` is what the k-th call of one request (counting
 * from 0) returned or threw.
 */
module Fallback {
  import opened Wrappers
  import opened Errors

  const DefaultModel: string := "google/gemini-2.0-flash-exp:free"
  const Llama: string := "meta-llama/llama-3.2-3b-instruct:free"
  const Hermes: string := "nousresearch/hermes-3-llama-3.1-405b:free"

  /** The text-only fallback list, in the order it is tried. */
  const FallbackModels: seq<string> := [DefaultModel, Llama, Hermes]

  /** The fallback list used when an image is attached. */
  const VisionFallbackModels: seq<string> :=
    [DefaultModel, "meta-llama/llama-3.2-90b-vision-instruct:free", "openai/gpt-4-turbo", "anthropic/claude-3.5-sonnet"]

  /** `value || fallback` for an optional setting: absent and empty both give the fallback. */
  function OrDefault(value: Option<string>, fallback: string): (r: string)
    ensures r == [] ==> fallback == []
    ensures value.Some? && value.value != [] ==> r == value.value
    ensures value.None? || value.value == [] ==> r == fallback
  {
    if value.Some? && value.value != [] then value.value else fallback
  }

  /** The controller's configuration, read once from the environment. */
  datatype Config = Config(chatModel: string, generationModel: string, apiKeySet: bool)

  /** `OPENROUTER_CHAT_MODEL`, `OPENROUTER_GENERATION_MODEL` and `OPENROUTER_API_KEY`. */
  function ConfigFromEnv(chatModel: Option<string>, generationModel: Option<string>, apiKey: Option<string>): (c: Config)
    ensures c.chatModel != [] && c.generationModel != []
    ensures chatModel.Some? && chatModel.value != [] ==> c.chatModel == chatModel.value
    ensures chatModel.None? || chatModel.value == [] ==> c.chatModel == DefaultModel
    ensures generationModel.Some? && generationModel.value != [] ==> c.generationModel == generationModel.value
    ensures generationModel.None? || generationModel.value == [] ==> c.generationModel == DefaultModel
    ensures c.apiKeySet <==> apiKey.Some? && apiKey.value != []
  {
    Config(OrDefault(chatModel, DefaultModel), OrDefault(generationModel, DefaultModel), apiKey.Some? && apiKey.value != [])
  }

  predicate Distinct(s: seq<string>) {
    forall i, j :: 0 <= i < j < |s| ==> s[i] != s[j]
  }

  /** `list.filter(m => m !== id)`. */
  function Without(list: seq<string>, id: string): (r: seq<string>)
    ensures forall m :: m in r <==> m in list && m != id
    ensures Distinct(list) ==> Distinct(r)
    ensures Distinct(list) ==> |r| == if id in list then |list| - 1 else |list|
    ensures |list| == 1 ==> r == if list[0] == id then [] else list
  {
    if list == [] then []
    else
      var rest := Without(list[1..], id);
      assert forall m :: m in list <==> m == list[0] || m in list[1..];
      if list[0] == id then rest
      else
        assert Distinct(list) ==> list[0] !in list[1..] && list[0] !in rest;
        assert forall a :: 0 < a < |[list[0]] + rest| ==> ([list[0]] + rest)[a] == rest[a - 1];
        [list[0]] + rest
  }

  /**
   * `filter` keeps the order: filtering a concatenation filters each part and concatenates the
   * results. With the one-element case of `Without` this determines the filter completely.
   */
  lemma {:induction false} WithoutKeepsOrder(a: seq<string>, b: seq<string>, id: string)
    ensures Without(a + b, id) == Without(a, id) + Without(b, id)
    decreases |a|
  {
    if a == [] {
      assert a + b == b;
    } else {
      assert (a + b)[1..] == a[1..] + b;
      WithoutKeepsOrder(a[1..], b, id);
    }
  }

  /** The fallback list for a request: the vision list when an image is attached. */
  function FallbackListFor(hasImage: bool): seq<string> {
    if hasImage then VisionFallbackModels else FallbackModels
  }

  /**
   * `[selectedModel, ...fallbackList.filter(m => m !== selectedModel)]`: the selected model
   * first, then every model of the fallback list except the selected one, with no model twice.
   */
  function Candidates(selected: string, hasImage: bool): (c: seq<string>)
    ensures c != [] && c[0] == selected
    ensures Distinct(c)
    ensures forall m :: m in c <==> m == selected || m in FallbackListFor(hasImage)
    ensures |c| == |FallbackListFor(hasImage)| + (if selected in FallbackListFor(hasImage) then 0 else 1)
    ensures c[1..] == Without(FallbackListFor(hasImage), selected)
  {
    var list := FallbackListFor(hasImage);
    assert Distinct(list);
    var rest := Without(list, selected);
    assert forall i :: 0 < i < |[selected] + rest| ==> ([selected] + rest)[i] == rest[i - 1];
    [selected] + rest
  }

  /** In a list without repeats, an element equals the last one exactly at the last position. */
  lemma DistinctLast(c: seq<string>, i: nat)
    requires Distinct(c) && i < |c|
    ensures c[i] == c[|c| - 1] <==> i == |c| - 1
  {
  }

  /** What one non-streaming provider call gave: the completion's content, or a thrown error. */
  datatype Reply = Answered(text: string) | Refused(error: JsError)

  /** A text and the model that produced it. */
  datatype Completion = Completion(model: string, text: string)

  /** The models called, in order, and the outcome. */
  datatype Attempt = Attempt(calls: seq<string>, result: Result<Completion, JsError>)

  /** The part of the walk over the fallback list that the source runs as a `for` loop. */
  datatype Walk = Walk(calls: seq<string>, answer: Option<Completion>)

  predicate RateLimited(e: JsError) {
    e.status == 429
  }

  /**
   * The fallback loop from position `i` of `list`, the next call being call number `k`:
   * `skip` is passed over, every other model is called in list order until one answers.
   */
  function FallbackWalk(list: seq<string>, skip: string, replies: nat -> Reply, k: nat, i: nat): (w: Walk)
    requires i <= |list|
    ensures |w.calls| <= |list| - i
    ensures forall m :: m in w.calls ==> m in list[i..] && m != skip
    ensures forall j :: k <= j < k + |w.calls| - 1 ==> replies(j).Refused?
    ensures w.answer.None? ==> forall j :: k <= j < k + |w.calls| ==> replies(j).Refused?
    ensures w.answer.Some? ==>
              w.calls != [] && w.answer.value.model == w.calls[|w.calls| - 1]
              && replies(k + |w.calls| - 1) == Answered(w.answer.value.text)
    decreases |list| - i
  {
    if i == |list| then Walk([], None)
    else
      assert forall m :: m in list[i..] <==> m == list[i] || m in list[i + 1..];
      if list[i] == skip then FallbackWalk(list, skip, replies, k, i + 1)
      else
        match replies(k)
        case Answered(t) => Walk([list[i]], Some(Completion(list[i], t)))
        case Refused(_) =>
          var w := FallbackWalk(list, skip, replies, k + 1, i + 1);
          Walk([list[i]] + w.calls, w.answer)
  }

  /** The walk calls each model of a repeat-free list at most once. */
  lemma {:induction false} FallbackWalkDistinct(list: seq<string>, skip: string, replies: nat -> Reply, k: nat, i: nat)
    requires i <= |list| && Distinct(list)
    ensures Distinct(FallbackWalk(list, skip, replies, k, i).calls)
    decreases |list| - i
  {
    if i < |list| {
      if list[i] == skip {
        FallbackWalkDistinct(list, skip, replies, k, i + 1);
      } else if replies(k).Refused? {
        FallbackWalkDistinct(list, skip, replies, k + 1, i + 1);
        var rest := FallbackWalk(list, skip, replies, k + 1, i + 1).calls;
        assert list[i] !in list[i + 1..];
        assert list[i] !in rest;
        var calls := [list[i]] + rest;
        assert forall a :: 0 < a < |calls| ==> calls[a] == rest[a - 1];
      }
    }
  }

  /**
   * The walk follows the list: its calls are the models of `list[i..]` other than `skip`, in
   * list order, up to the first that answers; when none answers it has called all of them.
   */
  lemma {:induction false} FallbackWalkInOrder(list: seq<string>, skip: string, replies: nat -> Reply, k: nat, i: nat)
    requires i <= |list|
    ensures var w := FallbackWalk(list, skip, replies, k, i);
            && |w.calls| <= |Without(list[i..], skip)|
            && w.calls == Without(list[i..], skip)[..|w.calls|]
            && (w.answer.None? ==> w.calls == Without(list[i..], skip))
    decreases |list| - i
  {
    if i < |list| {
      assert list[i..] == [list[i]] + list[i + 1..];
      WithoutKeepsOrder([list[i]], list[i + 1..], skip);
      if list[i] == skip {
        assert Without(list[i..], skip) == Without(list[i + 1..], skip);
        FallbackWalkInOrder(list, skip, replies, k, i + 1);
      } else {
        assert Without(list[i..], skip) == [list[i]] + Without(list[i + 1..], skip);
        if replies(k).Refused? {
          FallbackWalkInOrder(list, skip, replies, k + 1, i + 1);
        }
      }
    }
  }

  /**
   * A request with fallback on rate limiting: the `selected` model is called first and its
   * answer, even an empty one, is used. If it threw with status 429, the models of `list` other
   * than `skip` are called in order until one answers; that answer is used when it is
   * non-empty, and otherwise the primary error is rethrown. Any other primary error is
   * rethrown at once.
   */
  function CompleteOnce(selected: string, list: seq<string>, skip: string, replies: nat -> Reply): (a: Attempt)
    ensures a.calls != [] && a.calls[0] == selected
    ensures replies(0).Answered? ==> a == Attempt([selected], Success(Completion(selected, replies(0).text)))
    ensures replies(0).Refused? && !RateLimited(replies(0).error) ==> a == Attempt([selected], Failure(replies(0).error))
    ensures a.result.Failure? ==> replies(0).Refused? && a.result.error == replies(0).error
    ensures forall m :: m in a.calls[1..] ==> m in list && m != skip
    ensures |a.calls| > 1 && a.result.Success? ==>
              RateLimited(replies(0).error) && a.result.value.text != []
              && a.result.value.model == a.calls[|a.calls| - 1]
              && replies(|a.calls| - 1) == Answered(a.result.value.text)
  {
    match replies(0)
    case Answered(t) => Attempt([selected], Success(Completion(selected, t)))
    case Refused(e) =>
      if !RateLimited(e) then Attempt([selected], Failure(e))
      else
        var w := FallbackWalk(list, skip, replies, 1, 0);
        assert list[0..] == list;
        assert ([selected] + w.calls)[1..] == w.calls;
        if w.answer.Some? && w.answer.value.text != [] then Attempt([selected] + w.calls, Success(w.answer.value))
        else Attempt([selected] + w.calls, Failure(e))
  }

  /**
   * After a 429 from the selected model: the models of `list` other than `skip` are called in
   * list order, each after a refusal of the one before, until one answers or the list runs out.
   * The request succeeds exactly when the last model called answered with a non-empty text,
   * which is then the completion; otherwise the primary error is rethrown.
   */
  lemma CompleteOnceAfterRateLimit(selected: string, list: seq<string>, skip: string, replies: nat -> Reply)
    requires replies(0).Refused? && RateLimited(replies(0).error)
    ensures var a := CompleteOnce(selected, list, skip, replies);
            var rest := Without(list, skip);
            var n := |a.calls| - 1;
            && n <= |rest| && a.calls == [selected] + rest[..n]
            && (forall j :: 1 <= j < n ==> replies(j).Refused?)
            && ((n >= 1 && replies(n).Answered?) || (n == |rest| && forall j :: 1 <= j <= n ==> replies(j).Refused?))
            && (a.result.Success? <==> n >= 1 && replies(n).Answered? && replies(n).text != [])
            && (a.result.Success? ==> a.result.value == Completion(rest[n - 1], replies(n).text))
            && (a.result.Failure? ==> a.result.error == replies(0).error)
  {
    var a := CompleteOnce(selected, list, skip, replies);
    var w := FallbackWalk(list, skip, replies, 1, 0);
    AfterRateLimitIsWalk(selected, list, skip, replies);
    WalkFromStart(list, skip, replies);
    assert |a.calls| - 1 == |w.calls|;
  }

  /** The walk over the whole list, numbered from call 1, in terms of the models it may call. */
  lemma WalkFromStart(list: seq<string>, skip: string, replies: nat -> Reply)
    ensures var w := FallbackWalk(list, skip, replies, 1, 0);
            var rest := Without(list, skip);
            var n := |w.calls|;
            && n <= |rest| && w.calls == rest[..n]
            && (forall j :: 1 <= j < n ==> replies(j).Refused?)
            && (w.answer.Some? <==> n >= 1 && replies(n).Answered?)
            && (w.answer.Some? ==> w.answer.value == Completion(rest[n - 1], replies(n).text))
            && (w.answer.None? ==> n == |rest| && forall j :: 1 <= j <= n ==> replies(j).Refused?)
  {
    FallbackWalkInOrder(list, skip, replies, 1, 0);
    assert list[0..] == list;
  }

  /** After a 429 the attempt is the selected model followed by the walk over the list. */
  lemma AfterRateLimitIsWalk(selected: string, list: seq<string>, skip: string, replies: nat -> Reply)
    requires replies(0).Refused? && RateLimited(replies(0).error)
    ensures var a := CompleteOnce(selected, list, skip, replies);
            var w := FallbackWalk(list, skip, replies, 1, 0);
            && a.calls == [selected] + w.calls
            && (a.result.Success? <==> w.answer.Some? && w.answer.value.text != [])
            && (a.result.Success? ==> a.result.value == w.answer.value)
            && (a.result.Failure? ==> a.result.error == replies(0).error)
  {
  }

  /** The walk after the calls `done`, resumed at position `i` of the list. */
  ghost function Resume(list: seq<string>, skip: string, replies: nat -> Reply, done: seq<string>, i: nat): Walk
    requires i <= |list|
  {
    var w := FallbackWalk(list, skip, replies, 1 + |done|, i);
    Walk(done + w.calls, w.answer)
  }

  /** The skipped model is passed over without a call. */
  lemma SkipStep(list: seq<string>, skip: string, replies: nat -> Reply, done: seq<string>, i: nat)
    requires i < |list| && list[i] == skip
    ensures Resume(list, skip, replies, done, i) == Resume(list, skip, replies, done, i + 1)
  {
  }

  /** A model that answers ends the walk with its answer. */
  lemma AnsweredStep(list: seq<string>, skip: string, replies: nat -> Reply, done: seq<string>, i: nat)
    requires i < |list| && list[i] != skip && replies(1 + |done|).Answered?
    ensures Resume(list, skip, replies, done, i)
         == Walk(done + [list[i]], Some(Completion(list[i], replies(1 + |done|).text)))
  {
  }

  /** A model that throws is recorded and the walk moves on to the next. */
  lemma RefusedStep(list: seq<string>, skip: string, replies: nat -> Reply, done: seq<string>, i: nat)
    requires i < |list| && list[i] != skip && replies(1 + |done|).Refused?
    ensures Resume(list, skip, replies, done, i) == Resume(list, skip, replies, done + [list[i]], i + 1)
  {
    var rest := FallbackWalk(list, skip, replies, 2 + |done|, i + 1).calls;
    assert done + ([list[i]] + rest) == (done + [list[i]]) + rest;
  }

  /** At the end of the list the walk has no answer. */
  lemma EndStep(list: seq<string>, skip: string, replies: nat -> Reply, done: seq<string>)
    ensures Resume(list, skip, replies, done, |list|) == Walk(done, None)
  {
    assert done + [] == done;
  }

  /**
   * The `for` over the fallback list after a rate-limited primary call (call number 0): the
   * skipped model is passed over, the others are called in order until one answers.
   */
  method TryFallbacks(list: seq<string>, skip: string, replies: nat -> Reply)
    returns (calls: seq<string>, text: Option<Completion>)
    ensures Walk(calls, text) == FallbackWalk(list, skip, replies, 1, 0)
  {
    calls, text := [], None;
    assert Resume(list, skip, replies, calls, 0) == FallbackWalk(list, skip, replies, 1, 0);
    var i := 0;
    while i < |list|
      invariant 0 <= i <= |list|
      invariant Resume(list, skip, replies, calls, i) == FallbackWalk(list, skip, replies, 1, 0)
    {
      if list[i] == skip {
        SkipStep(list, skip, replies, calls, i);
        i := i + 1;
        continue;
      }
      var next := replies(1 + |calls|);
      if next.Answered? {
        AnsweredStep(list, skip, replies, calls, i);
        calls := calls + [list[i]];
        text := Some(Completion(list[i], next.text));
        return;
      }
      RefusedStep(list, skip, replies, calls, i);
      calls := calls + [list[i]];
      i := i + 1;
    }
    EndStep(list, skip, replies, calls);
  }

  /** The source's primary call, then the `for` over the fallback list. */
  method CompleteWithFallback(selected: string, list: seq<string>, skip: string, replies: nat -> Reply)
    returns (calls: seq<string>, result: Result<Completion, JsError>)
    ensures Attempt(calls, result) == CompleteOnce(selected, list, skip, replies)
  {
    calls := [selected];
    var reply := replies(0);
    if reply.Answered? {
      result := Success(Completion(selected, reply.text));
      return;
    }
    var primaryError := reply.error;
    if !RateLimited(primaryError) {
      result := Failure(primaryError);
      return;
    }
    var tried, text := TryFallbacks(list, skip, replies);
    calls := calls + tried;
    if text.None? || text.value.text == [] {
      result := Failure(primaryError);
    } else {
      result := Success(text.value);
    }
  }

  /**
   * When the model that was rate limited is the one skipped, no model is called twice: the
   * generation routes skip `selectedModel` and so never repeat a call.
   */
  lemma SkippingSelectedNeverRepeats(selected: string, list: seq<string>, replies: nat -> Reply)
    requires Distinct(list)
    ensures Distinct(CompleteOnce(selected, list, selected, replies).calls)
  {
    var a := CompleteOnce(selected, list, selected, replies);
    if |a.calls| > 1 {
      var w := FallbackWalk(list, selected, replies, 1, 0);
      FallbackWalkDistinct(list, selected, replies, 1, 0);
      assert a.calls == [selected] + w.calls;
      assert selected !in w.calls;
      assert forall i :: 0 < i < |a.calls| ==> a.calls[i] == w.calls[i - 1];
    }
  }
}
