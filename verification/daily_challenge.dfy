/** The daily quiz: four offered discount codes, and the first click locks the answer in. */
module DailyChallenge {
  import opened Options

  datatype Answer = Answer(answerLabel: string, icon: string)

  const CorrectAnswer: string := "BLACKFRIDAY"

  /** The four options, in display order. */
  const Answers: seq<Answer> := [
    Answer("SUMMER25", "\U{2600}\U{FE0F}"),
    Answer("NEWYEAR10", "\U{1F389}"),
    Answer("VIP20", "\U{1F451}"),
    Answer("BLACKFRIDAY", "\U{1F6CD}\U{FE0F}")
  ]

  /** The correct answer is one of the offered options (the last one). */
  lemma CorrectAnswerIsOffered()
    ensures exists i :: 0 <= i < |Answers| && Answers[i].answerLabel == CorrectAnswer
  {
    assert Answers[3].answerLabel == CorrectAnswer;
  }

  /** The quiz state: `selected` and `submitted`. */
  class Challenge {
    var selected: Option<string>
    var submitted: bool

    /** An answer is recorded exactly when the quiz has been submitted. */
    ghost predicate Valid()
      reads this
    {
      submitted <==> selected.Some?
    }

    /** Nothing is selected and nothing submitted when the card first renders. */
    constructor ()
      ensures Valid()
      ensures selected == None && !submitted
    {
      selected := None;
      submitted := false;
    }

    /** `handleSelect`: the first choice is recorded and submits the quiz; every later
        choice is ignored. */
    method HandleSelect(answer: string)
      requires Valid()
      modifies this
      ensures Valid()
      ensures submitted
      ensures old(submitted) ==> selected == old(selected)
      ensures !old(submitted) ==> selected == Some(answer)
    {
      if !submitted {
        selected := Some(answer);
        submitted := true;
      }
    }

    /** `isCorrect`: the recorded answer is the correct code; never before a submission. */
    function IsCorrect(): (r: bool)
      reads this
      requires Valid()
      ensures r ==> submitted
      ensures r <==> selected == Some(CorrectAnswer)
    {
      selected == Some(CorrectAnswer)
    }
  }

  /** Only the first click counts: after a wrong first answer the correct one no longer helps. */
  method FirstAnswerLocksIn()
  {
    var quiz := new Challenge();
    assert !quiz.IsCorrect();
    quiz.HandleSelect("VIP20");
    quiz.HandleSelect(CorrectAnswer);
    assert quiz.selected == Some("VIP20") && !quiz.IsCorrect();
  }
}
