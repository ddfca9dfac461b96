/**
 * The standalone chat page: sending a message appends it at once, clears the input and marks
 * the page as loading; the reply, or the error, settles the request. The two halves are the
 * parts of the handler before and after its `await`.
 */
module ChatPage {
  import opened Wrappers
  import opened Text
  import opened Conversation

  /** A message on the page (its random id is not modelled). */
  datatype PageMessage = PageMessage(role: string, content: string)

  /** What is sent to the server: the message and the history including it. */
  datatype Request = Request(message: string, history: seq<HistoryItem>)

  const DefaultError: string := "Something went wrong, please try again."
  const Placeholder: string := "..."

  /** `messages.map(m => ({role: m.role, content: m.content}))`. */
  function HistoryOf(messages: seq<PageMessage>): (h: seq<HistoryItem>)
    ensures |h| == |messages|
    ensures forall i :: 0 <= i < |messages| ==> h[i] == HistoryItem(messages[i].role, messages[i].content)
  {
    seq(|messages|, i requires 0 <= i < |messages| => HistoryItem(messages[i].role, messages[i].content))
  }

  /** `data.message ?? '...'`: only an absent message is replaced. */
  function ReplyText(message: Option<string>): (t: string)
    ensures message.Some? ==> t == message.value
    ensures message.None? ==> t == Placeholder
  {
    message.GetOr(Placeholder)
  }

  /** `e?.message || 'Something went wrong, please try again.'`. */
  function ErrorText(message: Option<string>): (t: string)
    ensures t != []
    ensures message.Some? && message.value != [] ==> t == message.value
    ensures message.None? || message.value == [] ==> t == DefaultError
  {
    if message.Some? && message.value != [] then message.value else DefaultError
  }

  /** How the request ended: the server's `message` field, or the thrown error's `message`. */
  datatype Settlement = Answered(message: Option<string>) | Errored(message: Option<string>)

  class ChatScreen {
    var messages: seq<PageMessage>
    var input: string
    var loading: bool
    var error: Option<string>

    constructor()
      ensures messages == [] && input == [] && !loading && error.None?
    {
      messages := [];
      input := [];
      loading := false;
      error := None;
    }

    /**
     * The handler up to its `await`: nothing happens for blank input or while a request is
     * pending; otherwise the trimmed text is appended as a user message, the input and error
     * are cleared, loading is set, and the request carries the history with the new message.
     */
    method Submit() returns (request: Option<Request>)
      modifies this
      ensures var content := Trim(old(input));
              if content == [] || old(loading) then
                request.None? && messages == old(messages) && input == old(input)
                && loading == old(loading) && error == old(error)
              else
                var userMsg := PageMessage("user", content);
                && messages == old(messages) + [userMsg]
                && input == [] && loading && error.None?
                && request == Some(Request(content, HistoryOf(old(messages) + [userMsg])))
    {
      var content := Trim(input);
      if content == [] || loading {
        request := None;
      } else {
        request := Send(content);
      }
    }

    /**
     * The accepted branch of the handler: `content` is appended as a user message, the input
     * and error are cleared, loading is set, and the request carries the new history.
     */
    method Send(content: string) returns (request: Option<Request>)
      modifies this
      ensures var userMsg := PageMessage("user", content);
              && messages == old(messages) + [userMsg]
              && input == [] && loading && error.None?
              && request == Some(Request(content, HistoryOf(old(messages) + [userMsg])))
    {
      var userMsg := PageMessage("user", content);
      request := Some(Request(content, HistoryOf(messages + [userMsg])));
      messages, input, loading, error := messages + [userMsg], [], true, None;
    }

    /**
     * The handler after its `await`: a reply appends one model message, an error is shown and
     * adds none; loading ends either way.
     */
    method Settle(outcome: Settlement)
      requires loading
      modifies this
      ensures !loading && input == old(input)
      ensures outcome.Answered? ==>
                messages == old(messages) + [PageMessage("model", ReplyText(outcome.message))] && error == old(error)
      ensures outcome.Errored? ==>
                messages == old(messages) && error == Some(ErrorText(outcome.message))
    {
      match outcome {
        case Answered(message) =>
          messages := messages + [PageMessage("model", ReplyText(message))];
        case Errored(message) =>
          error := Some(ErrorText(message));
      }
      loading := false;
    }
  }

  /** The history sent ends with the new message and starts with every earlier one, in order. */
  lemma HistoryEndsWithNewMessage(messages: seq<PageMessage>, content: string)
    ensures var h := HistoryOf(messages + [PageMessage("user", content)]);
            h[..|messages|] == HistoryOf(messages) && h[|messages|] == HistoryItem("user", content)
  {
  }
}
