/**
 * The chat bubble's typewriter effect: a model message is revealed one character per timer
 * tick, then the timer stops and the bubble stops showing the typing state; a user message is
 * shown whole at once. Tick timing is not modelled, only the order of ticks.
 */
module ChatMessage {

  /** The text shown after `k` ticks of the reveal. */
  function Revealed(content: string, k: nat): (shown: string)
    requires k <= |content|
    ensures |shown| == k && shown <= content
  {
    content[..k]
  }

  /** Each tick shows one more character of the same text. */
  lemma RevealGrows(content: string, k: nat)
    requires k < |content|
    ensures Revealed(content, k + 1) == Revealed(content, k) + [content[k]]
  {
  }

  class MessageBubble {
    const isModel: bool
    const content: string
    var displayedContent: string
    var isTyping: bool
    var currentIndex: nat
    var timerRunning: bool

    /** While the timer runs, exactly the first `currentIndex` characters are shown. */
    ghost predicate Valid()
      reads this
    {
      && currentIndex <= |content|
      && (timerRunning ==> isModel && isTyping && displayedContent == Revealed(content, currentIndex))
    }

    /** The first render: nothing shown, typing exactly for a model message. */
    constructor(isModel: bool, content: string)
      ensures Valid() && this.isModel == isModel && this.content == content
      ensures displayedContent == [] && isTyping == isModel && !timerRunning
    {
      this.isModel := isModel;
      this.content := content;
      displayedContent := [];
      isTyping := isModel;
      currentIndex := 0;
      timerRunning := false;
    }

    /** The effect: a model message restarts the reveal; a user message is shown whole. */
    method Mount()
      requires Valid()
      modifies this
      ensures Valid()
      ensures isModel ==> displayedContent == [] && isTyping && currentIndex == 0 && timerRunning
      ensures !isModel ==> displayedContent == content && isTyping == old(isTyping) && timerRunning == old(timerRunning)
    {
      if isModel {
        displayedContent := [];
        isTyping := true;
        currentIndex := 0;
        timerRunning := true;
      } else {
        displayedContent := content;
      }
    }

    /** One timer tick: reveal one more character, or, at the end, stop typing and the timer. */
    method Tick()
      requires Valid() && timerRunning
      modifies this
      ensures Valid()
      ensures old(currentIndex) < |content| ==>
                currentIndex == old(currentIndex) + 1 && timerRunning && displayedContent == Revealed(content, currentIndex)
      ensures old(currentIndex) == |content| ==>
                !timerRunning && !isTyping && displayedContent == content && currentIndex == old(currentIndex)
    {
      if currentIndex < |content| {
        displayedContent := content[..currentIndex + 1];
        currentIndex := currentIndex + 1;
      } else {
        assert content[..currentIndex] == content;
        isTyping := false;
        timerRunning := false;
      }
    }

    /**
     * The timer left to run: after `|content| + 1` ticks the whole text is shown and typing
     * has stopped. `shown` records the text on screen after each tick: one more character
     * of the content each time, then the whole content once more as the timer stops.
     */
    method Play() returns (ticks: nat, ghost shown: seq<string>)
      requires Valid() && timerRunning && currentIndex == 0
      modifies this
      ensures Valid() && !timerRunning && !isTyping
      ensures displayedContent == content && ticks == |content| + 1
      ensures |shown| == ticks
      ensures forall j :: 0 <= j < |shown| ==>
                shown[j] == Revealed(content, if j < |content| then j + 1 else |content|)
    {
      ticks, shown := 0, [];
      while timerRunning
        invariant Valid()
        invariant |shown| == ticks
        invariant forall j :: 0 <= j < |shown| ==>
                    shown[j] == Revealed(content, if j < |content| then j + 1 else |content|)
        invariant timerRunning ==> ticks == currentIndex
        invariant !timerRunning ==> ticks == |content| + 1 && !isTyping && displayedContent == content
        decreases |content| - currentIndex + (if timerRunning then 1 else 0)
      {
        Tick();
        if !timerRunning {
          assert content[..|content|] == content;
        }
        shown := shown + [displayedContent];
        ticks := ticks + 1;
      }
    }
  }
}
