/**
 * The chat prompt the OpenRouter controller sends: the tutor instruction as the system
 * message, the client's history with the client roles mapped onto the provider's, and the new
 * user turn, which carries the uploaded image next to the text when there is one.
 */
module Prompt {
  import opened Wrappers
  import opened Conversation
  import opened PromptText

  datatype PromptRole = System | Assistant | User

  /** An uploaded file as the upload middleware hands it over. */
  datatype ImageFile = ImageFile(mimetype: string, buffer: seq<bv8>)

  /**
   * A message body: plain text, or the vision form with a text part and an image part. The
   * image travels as a data URL built from the mimetype and the base64 of the buffer.
   */
  datatype Body = Text(text: string) | TextAndImage(text: string, image: ImageFile)

  datatype PromptMessage = PromptMessage(role: PromptRole, body: Body)

  /** `msg.role === 'model' ? 'assistant' : 'user'`. */
  function ProviderRole(role: string): (r: PromptRole)
    ensures r != System
    ensures r == Assistant <==> role == "model"
  {
    if role == "model" then Assistant else User
  }

  /** The body of the new user turn. */
  function UserBody(message: string, image: Option<ImageFile>): (b: Body)
    ensures b.text == message
    ensures b.TextAndImage? <==> image.Some?
    ensures b.TextAndImage? ==> b.image == image.value
  {
    if image.Some? then TextAndImage(message, image.value) else Text(message)
  }

  /** The history part of the prompt. */
  function HistoryMessages(history: seq<HistoryItem>): (ms: seq<PromptMessage>)
    ensures |ms| == |history|
    ensures forall i :: 0 <= i < |history| ==> ms[i] == PromptMessage(ProviderRole(history[i].role), Text(history[i].content))
  {
    seq(|history|, i requires 0 <= i < |history| => PromptMessage(ProviderRole(history[i].role), Text(history[i].content)))
  }

  /**
   * The whole prompt: one system message with the tutor instruction, then one message per
   * history item in order, then the user turn.
   */
  function BuildPrompt(history: seq<HistoryItem>, message: string, image: Option<ImageFile>): (p: seq<PromptMessage>)
    ensures |p| == |history| + 2
    ensures p[0] == PromptMessage(System, Text(SystemInstruction))
    ensures forall i :: 0 <= i < |history| ==>
              p[i + 1] == PromptMessage(ProviderRole(history[i].role), Text(history[i].content))
    ensures p[|p| - 1] == PromptMessage(User, UserBody(message, image))
    ensures forall i :: 0 < i < |p| ==> p[i].role != System
  {
    [PromptMessage(System, Text(SystemInstruction))] + HistoryMessages(history) + [PromptMessage(User, UserBody(message, image))]
  }

  /** One provider request: the model asked and the messages sent. */
  datatype Call = Call(model: string, messages: seq<PromptMessage>)

  /** The same messages sent to each model in turn. */
  function CallsTo(models: seq<string>, messages: seq<PromptMessage>): (cs: seq<Call>)
    ensures |cs| == |models|
    ensures forall i :: 0 <= i < |models| ==> cs[i] == Call(models[i], messages)
  {
    seq(|models|, i requires 0 <= i < |models| => Call(models[i], messages))
  }

  /** A prompt made of a single user message, as the title and generation requests send. */
  function SingleUserMessage(text: string): seq<PromptMessage> {
    [PromptMessage(User, Text(text))]
  }

  /** The client role a provider role came from, for histories that use only 'user' and 'model'. */
  function ClientRole(role: PromptRole): string {
    if role == Assistant then "model" else "user"
  }

  /** Reads the history back out of a prompt. */
  function RecoveredHistory(p: seq<PromptMessage>): (h: seq<HistoryItem>)
    requires |p| >= 2
    ensures |h| == |p| - 2
  {
    seq(|p| - 2, i requires 0 <= i < |p| - 2 => HistoryItem(ClientRole(p[i + 1].role), p[i + 1].body.text))
  }

  /** A client role survives the trip to the provider's role and back. */
  lemma RoleRoundTrip(role: string)
    requires role == "user" || role == "model"
    ensures ClientRole(ProviderRole(role)) == role
  {
    if role == "user" {
      assert role != "model" by { assert role[0] != "model"[0]; }
    }
  }

  /** Any prompt whose middle messages are the mapped history gives that history back. */
  lemma RecoveredFromMiddle(p: seq<PromptMessage>, history: seq<HistoryItem>)
    requires |p| == |history| + 2
    requires forall i :: 0 <= i < |history| ==> history[i].role == "user" || history[i].role == "model"
    requires forall i :: 0 <= i < |history| ==>
               p[i + 1] == PromptMessage(ProviderRole(history[i].role), Text(history[i].content))
    ensures RecoveredHistory(p) == history
  {
    var h := RecoveredHistory(p);
    forall i | 0 <= i < |history|
      ensures h[i] == history[i]
    {
      RoleRoundTrip(history[i].role);
    }
  }

  /**
   * The mapping loses nothing for a history written by the client, whose roles are 'user' and
   * 'model': the history can be read back from the prompt, item for item.
   */
  lemma PromptKeepsHistory(history: seq<HistoryItem>, message: string, image: Option<ImageFile>)
    requires forall i :: 0 <= i < |history| ==> history[i].role == "user" || history[i].role == "model"
    ensures RecoveredHistory(BuildPrompt(history, message, image)) == history
  {
    RecoveredFromMiddle(BuildPrompt(history, message, image), history);
  }
}
