/**
 * The flash-card dialog: a deck shown one card at a time, with previous/next navigation that
 * stops at either end and a flip between question and answer. The dialog is only opened with
 * at least one card; with none its first render already fails.
 */
module FlashCardModal {
  import opened Wrappers

  datatype FlashCard = FlashCard(question: string, answer: string)

  /** What the dialog shows: the card's position and which side is up. */
  datatype View = View(index: nat, flipped: bool)

  datatype Command = NextCard | PrevCard | Flip

  /** The effect of one handler on a deck of `size` cards. */
  function Step(size: nat, v: View, c: Command): (w: View)
    ensures c == NextCard ==> w == if v.index < size - 1 then View(v.index + 1, false) else v
    ensures c == PrevCard ==> w == if v.index > 0 then View(v.index - 1, false) else v
    ensures c == Flip ==> w == View(v.index, !v.flipped)
  {
    match c
    case NextCard => if v.index < size - 1 then View(v.index + 1, false) else v
    case PrevCard => if v.index > 0 then View(v.index - 1, false) else v
    case Flip => v.(flipped := !v.flipped)
  }

  /** A sequence of handler calls. */
  function Run(size: nat, v: View, cs: seq<Command>): View
    decreases |cs|
  {
    if cs == [] then v else Run(size, Step(size, v, cs[0]), cs[1..])
  }

  /** On a non-empty deck, any sequence of calls keeps the index on a card. */
  lemma {:induction false} RunStaysOnDeck(size: nat, v: View, cs: seq<Command>)
    requires 0 < size && v.index < size
    ensures Run(size, v, cs).index < size
    decreases |cs|
  {
    if cs != [] {
      RunStaysOnDeck(size, Step(size, v, cs[0]), cs[1..]);
    }
  }

  /** Flipping twice shows the same side again. */
  lemma FlipTwice(size: nat, v: View)
    ensures Run(size, v, [Flip, Flip]) == v
  {
    assert [Flip, Flip][1..] == [Flip];
  }

  /** Next then previous returns to the same card, face down, except at the last card. */
  lemma NextThenPrev(size: nat, v: View)
    requires v.index < size - 1
    ensures Run(size, v, [NextCard, PrevCard]) == View(v.index, false)
  {
    assert [NextCard, PrevCard][1..] == [PrevCard];
  }

  /** `title || 'Study Session'`. */
  function Subtitle(title: Option<string>): (s: string)
    ensures s != []
    ensures title.Some? && title.value != [] ==> s == title.value
    ensures title.None? || title.value == [] ==> s == "Study Session"
  {
    if title.Some? && title.value != [] then title.value else "Study Session"
  }

  class FlashCardDeck {
    const cards: seq<FlashCard>
    var currentIndex: nat
    var isFlipped: bool

    ghost predicate Valid()
      reads this
    {
      0 < |cards| && currentIndex < |cards|
    }

    function CurrentView(): View
      reads this
    {
      View(currentIndex, isFlipped)
    }

    constructor(cards: seq<FlashCard>)
      requires cards != []
      ensures Valid() && this.cards == cards && CurrentView() == View(0, false)
    {
      this.cards := cards;
      currentIndex := 0;
      isFlipped := false;
    }

    /** The Previous button is disabled exactly on the first card. */
    function PrevDisabled(): (r: bool)
      reads this
      requires Valid()
      ensures r <==> Step(|cards|, CurrentView(), PrevCard) == CurrentView()
    {
      currentIndex == 0
    }

    /** The Next button is disabled exactly on the last card. */
    function NextDisabled(): (r: bool)
      reads this
      requires Valid()
      ensures r <==> Step(|cards|, CurrentView(), NextCard) == CurrentView()
    {
      currentIndex == |cards| - 1
    }

    method HandleNext()
      requires Valid()
      modifies this
      ensures Valid() && CurrentView() == Step(|cards|, old(CurrentView()), NextCard)
    {
      if currentIndex < |cards| - 1 {
        currentIndex := currentIndex + 1;
        isFlipped := false;
      }
    }

    method HandlePrev()
      requires Valid()
      modifies this
      ensures Valid() && CurrentView() == Step(|cards|, old(CurrentView()), PrevCard)
    {
      if currentIndex > 0 {
        currentIndex := currentIndex - 1;
        isFlipped := false;
      }
    }

    method HandleFlip()
      requires Valid()
      modifies this
      ensures Valid() && CurrentView() == Step(|cards|, old(CurrentView()), Flip)
    {
      isFlipped := !isFlipped;
    }
  }
}
