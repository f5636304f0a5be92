/**
 * The certification quiz of the academy (frontend/components/MasterClass.tsx): the score,
 * the grading tiers and the progression through the questions of the open lesson.
 */
module MasterClass {

  datatype Quiz = Quiz(question: string, options: seq<string>, correctIndex: int, explanation: string)

  datatype ViewMode = CONTENT | QUIZ | RESULTS

  /** quizScore: the answers that match their question's correct option. */
  function QuizScore(quizzes: seq<Quiz>, answers: seq<int>): (n: nat)
    requires |answers| <= |quizzes|
    ensures n <= |answers|
  {
    if answers == [] then 0
    else
      var k := |answers| - 1;
      QuizScore(quizzes, answers[..k]) + (if answers[k] == quizzes[k].correctIndex then 1 else 0)
  }

  /** The positions answered correctly. */
  function CorrectPositions(quizzes: seq<Quiz>, answers: seq<int>): set<nat>
    requires |answers| <= |quizzes|
  {
    set i: nat | i < |answers| && answers[i] == quizzes[i].correctIndex
  }

  /** The score is the number of positions whose answer is the correct option. */
  lemma {:induction false} ScoreCountsCorrectAnswers(quizzes: seq<Quiz>, answers: seq<int>)
    requires |answers| <= |quizzes|
    ensures QuizScore(quizzes, answers) == |CorrectPositions(quizzes, answers)|
  {
    if answers != [] {
      var k := |answers| - 1;
      ScoreCountsCorrectAnswers(quizzes, answers[..k]);
      var before := CorrectPositions(quizzes, answers[..k]);
      var after := CorrectPositions(quizzes, answers);
      if answers[k] == quizzes[k].correctIndex {
        assert after == before + {k};
        assert k !in before;
      } else {
        assert after == before;
      }
    }
  }

  /** One more answer adds one point exactly when it is the correct option of its question. */
  lemma ScoreAfterAnswer(quizzes: seq<Quiz>, answers: seq<int>, option: int)
    requires |answers| < |quizzes|
    ensures QuizScore(quizzes, answers + [option])
            == QuizScore(quizzes, answers) + (if option == quizzes[|answers|].correctIndex then 1 else 0)
  {
    assert (answers + [option])[..|answers|] == answers;
  }

  datatype Grade = Perfect | Validated | Failed

  /** The grading tiers of the results screen: all correct, at least 70%, or below. */
  function GradeOf(score: nat, total: nat): (g: Grade)
    ensures g == Perfect <==> score == total
    ensures g == Validated <==> score != total && score as real >= total as real * 0.7
    ensures g == Failed <==> score != total && score as real < total as real * 0.7
  {
    if score == total then Perfect
    else if score as real >= total as real * 0.7 then Validated
    else Failed
  }

  function GradeLevel(g: Grade): nat
  {
    match g
    case Failed => 0
    case Validated => 1
    case Perfect => 2
  }

  /** A higher score never earns a lower grade. */
  lemma GradeMonotone(s1: nat, s2: nat, total: nat)
    requires s1 <= s2 <= total
    ensures GradeLevel(GradeOf(s1, total)) <= GradeLevel(GradeOf(s2, total))
  {
  }

  /** The quiz state of the open lesson. */
  class QuizSession {
    const quizzes: seq<Quiz>
    var viewMode: ViewMode
    var answers: seq<int>
    var questionIndex: int
    var showExplanation: bool

    /**
     * One answer per question already seen, plus one for the question on screen once its
     * explanation is shown; the lesson page starts from a cleared quiz; the results screen
     * is reached only with every question answered.
     */
    predicate Valid()
      reads this
      ensures Valid() ==> |answers| <= |quizzes|
    {
      0 <= questionIndex
      && (questionIndex < |quizzes| || questionIndex == 0)
      && (showExplanation ==> questionIndex < |quizzes|)
      && |answers| == questionIndex + (if showExplanation then 1 else 0)
      && (viewMode == CONTENT ==> answers == [] && questionIndex == 0 && !showExplanation)
      && (viewMode == RESULTS ==> |answers| == |quizzes|)
    }

    function Score(): nat
      reads this
      requires Valid()
    {
      QuizScore(quizzes, answers)
    }

    /** handleStartCourse: the lesson opens on its content with a cleared quiz. */
    constructor (quizzes: seq<Quiz>)
      ensures this.quizzes == quizzes
      ensures viewMode == CONTENT && answers == [] && questionIndex == 0 && !showExplanation
      ensures Valid()
    {
      this.quizzes := quizzes;
      viewMode := CONTENT;
      answers := [];
      questionIndex := 0;
      showExplanation := false;
    }

    /** resetQuiz: no answers, first question, explanation hidden. */
    method ResetQuiz()
      modifies this
      ensures answers == [] && questionIndex == 0 && !showExplanation
      ensures viewMode == old(viewMode)
    {
      answers := [];
      questionIndex := 0;
      showExplanation := false;
    }

    /** The lesson buttons and "REPRENDRE LA LEÇON": reset the quiz and show the content. */
    method BackToContent()
      modifies this
      ensures viewMode == CONTENT && answers == [] && questionIndex == 0 && !showExplanation
      ensures Valid()
    {
      ResetQuiz();
      viewMode := CONTENT;
    }

    /** "CERTIFIER LE MODULE": the content page opens the quiz. */
    method StartQuiz()
      requires Valid() && viewMode == CONTENT
      modifies this
      ensures viewMode == QUIZ
      ensures answers == old(answers) && questionIndex == old(questionIndex) && showExplanation == old(showExplanation)
      ensures Valid()
    {
      viewMode := QUIZ;
    }

    /**
     * handleNextQuestion, reachable from an option button, which is enabled only while the
     * explanation is hidden: record the answer and show the explanation.
     */
    method HandleNextQuestion(optionIdx: int)
      requires Valid() && viewMode == QUIZ && !showExplanation && questionIndex < |quizzes|
      modifies this
      ensures answers == old(answers) + [optionIdx] && showExplanation
      ensures questionIndex == old(questionIndex) && viewMode == old(viewMode)
      ensures Valid()
      ensures Score() == old(Score()) + (if optionIdx == quizzes[questionIndex].correctIndex then 1 else 0)
    {
      ScoreAfterAnswer(quizzes, answers, optionIdx);
      answers := answers + [optionIdx];
      showExplanation := true;
    }

    /**
     * proceedToNext, reachable from the button under a shown explanation: the next question,
     * or the results after the last one.
     */
    method ProceedToNext()
      requires Valid() && viewMode == QUIZ && showExplanation
      modifies this
      ensures old(questionIndex) < |quizzes| - 1 ==>
        questionIndex == old(questionIndex) + 1 && !showExplanation && viewMode == QUIZ
      ensures old(questionIndex) >= |quizzes| - 1 ==>
        viewMode == RESULTS && questionIndex == old(questionIndex) && showExplanation
      ensures answers == old(answers)
      ensures Valid()
    {
      if questionIndex < |quizzes| - 1 {
        questionIndex := questionIndex + 1;
        showExplanation := false;
      } else {
        viewMode := RESULTS;
      }
    }
  }

  /** Every answer is correct exactly when the score equals the number of answers. */
  lemma {:induction false} FullScoreIffAllCorrect(quizzes: seq<Quiz>, answers: seq<int>)
    requires |answers| <= |quizzes|
    ensures QuizScore(quizzes, answers) == |answers|
            <==> forall i :: 0 <= i < |answers| ==> answers[i] == quizzes[i].correctIndex
  {
    if answers != [] {
      var k := |answers| - 1;
      FullScoreIffAllCorrect(quizzes, answers[..k]);
      assert forall i :: 0 <= i < k ==> answers[..k][i] == answers[i];
    }
  }

  /** On the results screen every question is answered, and the grade is "perfect" exactly when all answers are correct. */
  lemma ResultsGradePerfectIffAllCorrect(quizzes: seq<Quiz>, answers: seq<int>)
    requires |answers| == |quizzes|
    ensures GradeOf(QuizScore(quizzes, answers), |quizzes|) == Perfect
            <==> forall i :: 0 <= i < |answers| ==> answers[i] == quizzes[i].correctIndex
  {
    FullScoreIffAllCorrect(quizzes, answers);
  }
}
