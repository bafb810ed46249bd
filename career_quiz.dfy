/** The career quiz component: a fixed table of four questions and the
    navigation state that the answer, next, previous and restart handlers change. */
module CareerQuiz {
  import opened QuizResults

  datatype QuizOption = QuizOption(id: string, text: string, value: string)
  datatype QuizItem = QuizItem(id: int, category: string, question: string, options: seq<QuizOption>)

  /** `quizQuestions` (the icons are left out). */
  const Questions: seq<QuizItem> := [
    QuizItem(1, "Interests", "What type of activities do you enjoy most?", [
      QuizOption("a", "Solving complex problems and puzzles", "analytical"),
      QuizOption("b", "Creating art, music, or writing", "creative"),
      QuizOption("c", "Helping and supporting others", "social"),
      QuizOption("d", "Leading teams and making decisions", "leadership")]),
    QuizItem(2, "Skills", "Which skill comes most naturally to you?", [
      QuizOption("a", "Mathematical and logical thinking", "analytical"),
      QuizOption("b", "Communication and presentation", "social"),
      QuizOption("c", "Innovation and creative thinking", "creative"),
      QuizOption("d", "Organization and planning", "leadership")]),
    QuizItem(3, "Work Environment", "What work environment appeals to you most?", [
      QuizOption("a", "Quiet office with focus on research", "analytical"),
      QuizOption("b", "Creative studio or flexible workspace", "creative"),
      QuizOption("c", "Community center or healthcare facility", "social"),
      QuizOption("d", "Corporate office or boardroom", "leadership")]),
    QuizItem(4, "Goals", "What motivates you the most?", [
      QuizOption("a", "Solving big challenges", "analytical"),
      QuizOption("b", "Expressing creativity", "creative"),
      QuizOption("c", "Making a difference in people\U{2019}s lives", "social"),
      QuizOption("d", "Leading projects to success", "leadership")])
  ]

  /** The question at position `i` has id `i + 1`, four options, and every
      option's value is one of the four category keys, each key offered once. */
  lemma QuestionTable()
    ensures |Questions| == 4
    ensures forall i :: 0 <= i < 4 ==> Questions[i].id == i + 1 && |Questions[i].options| == 4
    ensures forall i, j :: 0 <= i < 4 && 0 <= j < 4 ==> CategoryOf(Questions[i].options[j].value).Some?
    ensures forall i, j, k :: 0 <= i < 4 && 0 <= j < k < 4 ==>
              Questions[i].options[j].value != Questions[i].options[k].value
  {
  }

  /** An option value offered by the question with id `id`. */
  predicate Offered(id: int, value: string) {
    exists i, j :: 0 <= i < |Questions| && Questions[i].id == id
                   && 0 <= j < |Questions[i].options| && Questions[i].options[j].value == value
  }

  /** `progress`: the percentage shown for the question at position `q`. */
  function Progress(q: int): real {
    (q + 1) as real / |Questions| as real * 100.0
  }

  /** The progress bar moves in steps of 25, from 25 on the first question to
      100 on the last. */
  lemma ProgressSteps(q: int)
    requires 0 <= q < |Questions|
    ensures Progress(q) == 25.0 * (q + 1) as real
    ensures 25.0 <= Progress(q) <= 100.0
    ensures q == 0 ==> Progress(q) == 25.0
    ensures q == |Questions| - 1 ==> Progress(q) == 100.0
  {
  }

  /** `!answers[question.id]` is false: the id has a non-empty answer. */
  predicate HasAnswer(answers: map<int, string>, id: int) {
    id in answers && answers[id] != ""
  }

  /** `Object.values(answers)` for answers keyed by question ids: the values in
      ascending id order. */
  function AnswerValues(answers: map<int, string>): seq<string> {
    Collect(answers, 1)
  }

  function Collect(answers: map<int, string>, id: int): seq<string>
    requires 1 <= id <= |Questions| + 1
    decreases |Questions| + 1 - id
  {
    if id == |Questions| + 1 then []
    else if id in answers then [answers[id]] + Collect(answers, id + 1)
    else Collect(answers, id + 1)
  }

  /** A finished quiz whose answers were picked from the options is scored on
      four counted answers: each percentage is 25 times its tally and they sum
      to 100. */
  lemma CompletedQuizScores(answers: map<int, string>)
    requires forall id :: 1 <= id <= 4 ==> id in answers && Offered(id, answers[id])
    ensures AnswerValues(answers) == [answers[1], answers[2], answers[3], answers[4]]
    ensures Total(TallyOf(AnswerValues(answers))) == 4
    ensures Total(Percentages(TallyOf(AnswerValues(answers)))) == 100
  {
    var vs := AnswerValues(answers);
    assert vs == [answers[1], answers[2], answers[3], answers[4]];
    QuestionTable();
    forall i | 0 <= i < 4 ensures CategoryOf(vs[i]).Some? {
      var id := i + 1;
      assert Offered(id, answers[id]);
      var qi, j :| 0 <= qi < |Questions| && Questions[qi].id == id
                   && 0 <= j < |Questions[qi].options| && Questions[qi].options[j].value == answers[id];
    }
    FourAnswersQuarterSteps(vs);
    TotalExact(vs);
  }

  /** The quiz component's state. */
  class Quiz {
    var currentQuestion: int
    var answers: map<int, string>
    var isCompleted: bool

    /** The question shown is always one of the table's. */
    ghost predicate Valid()
      reads this
    {
      0 <= currentQuestion < |Questions|
    }

    /** The Next button is disabled until the shown question is answered, so
        every question before the shown one has an answer, and once the quiz
        is completed every question has one. */
    ghost predicate AnsweredSoFar()
      reads this
    {
      (forall i :: 0 <= i < currentQuestion && i < |Questions| ==> HasAnswer(answers, Questions[i].id))
      && (isCompleted ==> forall i :: 0 <= i < |Questions| ==> HasAnswer(answers, Questions[i].id))
    }

    /** The answers are picked from the radio options, so every stored answer is
        an option value of its own question. */
    ghost predicate AnswersOffered()
      reads this
    {
      forall id :: id in answers ==> Offered(id, answers[id])
    }

    constructor ()
      ensures Valid() && AnsweredSoFar() && AnswersOffered()
      ensures currentQuestion == 0 && answers == map[] && !isCompleted
    {
      currentQuestion := 0;
      answers := map[];
      isCompleted := false;
    }

    /** The `question` being shown. */
    function Shown(): (q: QuizItem)
      reads this
      requires Valid()
      ensures q.id == currentQuestion + 1
    {
      QuestionTable();
      Questions[currentQuestion]
    }

    /** `handleAnswer`: records `value` for `questionId` and touches no other answer. */
    method Answer(questionId: int, value: string)
      modifies this
      ensures answers == old(answers)[questionId := value]
      ensures currentQuestion == old(currentQuestion) && isCompleted == old(isCompleted)
      ensures old(answers).Keys <= answers.Keys
      ensures forall id :: id in old(answers) && id != questionId ==> answers[id] == old(answers)[id]
      ensures old(Valid()) ==> Valid()
      ensures old(AnsweredSoFar()) && value != "" ==> AnsweredSoFar()
      ensures old(AnswersOffered()) && Offered(questionId, value) ==> AnswersOffered()
    {
      answers := answers[questionId := value];
    }

    /** `handleNext`: advances, or on the last question marks the quiz completed
        and stays there (saving the results is left out). */
    method Next()
      requires Valid()
      modifies this
      ensures Valid()
      ensures answers == old(answers)
      ensures old(currentQuestion) < |Questions| - 1 ==>
                currentQuestion == old(currentQuestion) + 1 && isCompleted == old(isCompleted)
      ensures old(currentQuestion) == |Questions| - 1 ==>
                currentQuestion == old(currentQuestion) && isCompleted
      ensures old(AnswersOffered()) ==> AnswersOffered()
    {
      if currentQuestion < |Questions| - 1 {
        currentQuestion := currentQuestion + 1;
      } else {
        isCompleted := true;
      }
    }

    /** A press of the Next button, which does nothing while it is disabled. */
    method PressNext()
      requires Valid()
      modifies this
      ensures Valid()
      ensures answers == old(answers)
      ensures !HasAnswer(old(answers), Questions[old(currentQuestion)].id) ==>
                currentQuestion == old(currentQuestion) && isCompleted == old(isCompleted)
      ensures HasAnswer(old(answers), Questions[old(currentQuestion)].id) && old(currentQuestion) < |Questions| - 1 ==>
                currentQuestion == old(currentQuestion) + 1 && isCompleted == old(isCompleted)
      ensures HasAnswer(old(answers), Questions[old(currentQuestion)].id) && old(currentQuestion) == |Questions| - 1 ==>
                currentQuestion == old(currentQuestion) && isCompleted
      ensures old(AnsweredSoFar()) ==> AnsweredSoFar()
      ensures old(AnswersOffered()) ==> AnswersOffered()
    {
      if HasAnswer(answers, Shown().id) {
        Next();
      }
    }

    /** `handlePrevious`: steps back, except on the first question. */
    method Previous()
      requires Valid()
      modifies this
      ensures Valid()
      ensures answers == old(answers) && isCompleted == old(isCompleted)
      ensures old(currentQuestion) > 0 ==> currentQuestion == old(currentQuestion) - 1
      ensures old(currentQuestion) == 0 ==> currentQuestion == 0
      ensures old(AnsweredSoFar()) ==> AnsweredSoFar()
      ensures old(AnswersOffered()) ==> AnswersOffered()
    {
      if currentQuestion > 0 {
        currentQuestion := currentQuestion - 1;
      }
    }

    /** `handleRestart`: back to the first question with no answers. */
    method Restart()
      modifies this
      ensures Valid() && AnsweredSoFar() && AnswersOffered()
      ensures currentQuestion == 0 && answers == map[] && !isCompleted
    {
      currentQuestion := 0;
      answers := map[];
      isCompleted := false;
    }
  }

  /** A quiz completed through the buttons hands the results screen four
      offered answers, so the percentages it shows sum to 100. */
  lemma CompletedQuizShowsFullScores(q: Quiz)
    requires q.isCompleted && q.AnsweredSoFar() && q.AnswersOffered()
    ensures forall id :: 1 <= id <= 4 ==> id in q.answers && Offered(id, q.answers[id])
    ensures Total(TallyOf(AnswerValues(q.answers))) == 4
    ensures Total(Percentages(TallyOf(AnswerValues(q.answers)))) == 100
  {
    QuestionTable();
    forall id | 1 <= id <= 4 ensures id in q.answers && Offered(id, q.answers[id]) {
      assert Questions[id - 1].id == id;
      assert HasAnswer(q.answers, Questions[id - 1].id);
    }
    CompletedQuizScores(q.answers);
  }
}
