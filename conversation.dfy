/**
 * The chat history a client sends with each request, and the plain-text transcript both
 * controllers embed in their flash-card and quiz prompts.
 */
module Conversation {
  import opened Text

  /** One `{role, content}` item of a request's `history`; the client sends 'user' or 'model'. */
  datatype HistoryItem = HistoryItem(role: string, content: string)

  /** 'Student' for the role 'user', 'Tutor' for every other role. */
  function Speaker(role: string): string {
    if role == "user" then "Student" else "Tutor"
  }

  /** One transcript line: `${speaker}: ${content}`. */
  function TranscriptLine(item: HistoryItem): string {
    Speaker(item.role) + ": " + item.content
  }

  /** The transcript lines, one per history item, in history order. */
  function TranscriptLines(history: seq<HistoryItem>): (lines: seq<string>)
    ensures |lines| == |history|
    ensures forall i :: 0 <= i < |history| ==> lines[i] == TranscriptLine(history[i])
  {
    seq(|history|, i requires 0 <= i < |history| => TranscriptLine(history[i]))
  }

  /** `history.map(line).join('\n')`. */
  function Transcript(history: seq<HistoryItem>): string {
    Join(TranscriptLines(history), "\n")
  }

  /**
   * The transcript grows one line at a time: a further history item adds a newline and its
   * own line, so the lines appear in history order, each prefixed by its speaker.
   */
  lemma TranscriptSnoc(history: seq<HistoryItem>, item: HistoryItem)
    requires history != []
    ensures Transcript(history + [item]) == Transcript(history) + "\n" + TranscriptLine(item)
  {
    assert TranscriptLines(history + [item]) == TranscriptLines(history) + [TranscriptLine(item)];
    JoinSnoc(TranscriptLines(history), TranscriptLine(item), "\n");
  }

  /** A one-item history is exactly that item's line; no history gives an empty transcript. */
  lemma TranscriptBase(item: HistoryItem)
    ensures Transcript([]) == []
    ensures Transcript([item]) == TranscriptLine(item)
  {
    assert TranscriptLines([item]) == [TranscriptLine(item)];
  }

  /** The two study artifacts generated from a conversation. */
  datatype ArtifactKind = FlashCardSet | Quiz

  /**
   * What a generation reply parses to: the optional title and the flash cards or questions,
   * each kept as its JSON text.
   */
  datatype Parsed = Parsed(title: string, items: seq<string>)

  /** The `error` text of a failed generation, the same in both controllers. */
  function GenerationFailureText(kind: ArtifactKind): string {
    match kind
    case FlashCardSet => "Failed to generate flash cards"
    case Quiz => "Failed to generate quiz"
  }
}
