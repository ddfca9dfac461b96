/**
 * The quiz dialog: one question at a time, a single answer per question, a running score, and
 * the closing verdict. The dialog is only opened with at least one question; with none its
 * first render already fails.
 */
module QuizModal {
  import opened Wrappers

  datatype QuizQuestion = QuizQuestion(question: string, options: seq<string>, correctAnswer: int, explanation: string)

  /** The number of correct answers recorded. */
  function CountTrue(bs: seq<bool>): (n: nat)
    ensures n <= |bs|
    ensures n == |bs| <==> forall i :: 0 <= i < |bs| ==> bs[i]
  {
    if bs == [] then 0
    else
      var init := bs[..|bs| - 1];
      assert forall i :: 0 <= i < |init| ==> init[i] == bs[i];
      CountTrue(init) + (if bs[|bs| - 1] then 1 else 0)
  }

  lemma CountTrueSnoc(bs: seq<bool>, b: bool)
    ensures CountTrue(bs + [b]) == CountTrue(bs) + (if b then 1 else 0)
  {
    assert (bs + [b])[..|bs|] == bs;
  }

  datatype Verdict = Perfect | GreatJob | KeepPracticing

  /**
   * `score === quiz.length ? Perfect : score >= quiz.length * 0.7 ? GreatJob : KeepPracticing`,
   * the floating-point comparison with a whole-number score stated as `10 * score >= 7 * total`.
   */
  function FinalVerdict(score: nat, total: nat): (v: Verdict)
    ensures v == Perfect <==> score == total
    ensures v == GreatJob <==> score != total && 10 * score >= 7 * total
    ensures v == KeepPracticing <==> score != total && 10 * score < 7 * total
  {
    if score == total then Perfect
    else if 10 * score >= 7 * total then GreatJob
    else KeepPracticing
  }

  function VerdictMessage(v: Verdict): string {
    match v
    case Perfect => "🎉 Perfect score!"
    case GreatJob => "👍 Great job!"
    case KeepPracticing => "💪 Keep practicing!"
  }

  function Rank(v: Verdict): nat {
    match v
    case KeepPracticing => 0
    case GreatJob => 1
    case Perfect => 2
  }

  /** For scores up to the number of questions, a higher score never earns a lower verdict. */
  lemma VerdictMonotone(s1: nat, s2: nat, total: nat)
    requires s1 <= s2 <= total
    ensures Rank(FinalVerdict(s1, total)) <= Rank(FinalVerdict(s2, total))
  {
  }

  class QuizSession {
    const quiz: seq<QuizQuestion>
    var currentIndex: nat
    var selectedAnswer: Option<int>
    var showExplanation: bool
    var score: nat
    var answers: seq<bool>

    /**
     * The index stays on a question, the score is the number of correct answers, the
     * explanation shows exactly when an answer is selected, and at most one answer is
     * recorded per question reached.
     */
    ghost predicate Valid()
      reads this
    {
      && 0 < |quiz| && currentIndex < |quiz|
      && score == CountTrue(answers)
      && (selectedAnswer.Some? <==> showExplanation)
      && |answers| <= currentIndex + (if selectedAnswer.Some? then 1 else 0)
    }

    constructor(quiz: seq<QuizQuestion>)
      requires quiz != []
      ensures Valid() && this.quiz == quiz
      ensures currentIndex == 0 && selectedAnswer.None? && !showExplanation && score == 0 && answers == []
    {
      this.quiz := quiz;
      currentIndex := 0;
      selectedAnswer := None;
      showExplanation := false;
      score := 0;
      answers := [];
    }

    function IsLastQuestion(): (r: bool)
      reads this
      ensures r <==> currentIndex == |quiz| - 1
    {
      currentIndex == |quiz| - 1
    }

    /** `isLastQuestion && selectedAnswer !== null`. */
    function IsFinished(): (r: bool)
      reads this
      ensures r <==> currentIndex == |quiz| - 1 && selectedAnswer.Some?
    {
      IsLastQuestion() && selectedAnswer.Some?
    }

    /** The "Next Question" button is shown once an answer is selected, except on the last question. */
    function ShowsNextButton(): (r: bool)
      reads this
      requires Valid()
      ensures r <==> selectedAnswer.Some? && currentIndex < |quiz| - 1
    {
      selectedAnswer.Some? && !IsLastQuestion()
    }

    /**
     * The closing verdict shown when the quiz is finished: perfect exactly when every question
     * was answered and every answer was right, otherwise judged on the correct answers recorded.
     */
    function Result(): (v: Verdict)
      reads this
      requires Valid()
      ensures v == Perfect <==> |answers| == |quiz| && forall i :: 0 <= i < |answers| ==> answers[i]
      ensures v != Perfect ==> (v == GreatJob <==> 10 * CountTrue(answers) >= 7 * |quiz|)
    {
      FinalVerdict(score, |quiz|)
    }

    /**
     * `handleSelectAnswer`: ignored once the question is answered; otherwise the choice is
     * kept, the explanation shown, and one answer recorded, counted when it is correct.
     */
    method SelectAnswer(option: int)
      requires Valid()
      modifies this
      ensures Valid()
      ensures old(selectedAnswer).Some? ==>
                currentIndex == old(currentIndex) && selectedAnswer == old(selectedAnswer)
                && showExplanation == old(showExplanation) && score == old(score) && answers == old(answers)
      ensures old(selectedAnswer).None? ==>
                var correct := option == quiz[old(currentIndex)].correctAnswer;
                && currentIndex == old(currentIndex) && selectedAnswer == Some(option) && showExplanation
                && answers == old(answers) + [correct]
                && score == old(score) + (if correct then 1 else 0)
    {
      if selectedAnswer.Some? {
        return;
      }
      selectedAnswer := Some(option);
      showExplanation := true;
      var isCorrect := option == quiz[currentIndex].correctAnswer;
      CountTrueSnoc(answers, isCorrect);
      answers := answers + [isCorrect];
      if isCorrect {
        score := score + 1;
      }
    }

    /** `handleNext`: moves to the next question, if there is one, with nothing selected. */
    method Next()
      requires Valid()
      modifies this
      ensures Valid()
      ensures score == old(score) && answers == old(answers)
      ensures old(currentIndex) < |quiz| - 1 ==>
                currentIndex == old(currentIndex) + 1 && selectedAnswer.None? && !showExplanation
      ensures old(currentIndex) == |quiz| - 1 ==>
                currentIndex == old(currentIndex) && selectedAnswer == old(selectedAnswer)
                && showExplanation == old(showExplanation)
    {
      if currentIndex < |quiz| - 1 {
        currentIndex := currentIndex + 1;
        selectedAnswer := None;
        showExplanation := false;
      }
    }

    /** `handleRestart`: every field back to its initial value. */
    method Restart()
      requires Valid()
      modifies this
      ensures Valid()
      ensures currentIndex == 0 && selectedAnswer.None? && !showExplanation && score == 0 && answers == []
    {
      currentIndex := 0;
      selectedAnswer := None;
      showExplanation := false;
      score := 0;
      answers := [];
    }
  }
}
