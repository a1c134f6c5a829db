// The older quiz service: a published question list plus a mutable map from
// numeric question id to answer. Results and score are computed from those
// two fields on demand.

module LegacyQuiz {
  import opened QuizTypes

  /** Questions of the older service carry a numeric id, used directly as the
      answer key. */
  datatype LegacyQuestion = LegacyQuestion(id: int, question: string, options: seq<string>, correctAnswer: string)

  /** The result entry of one question. The shown answer falls back to
      "Not answered" for a missing OR empty answer (`||`), while correctness
      compares the raw stored value (`===`). */
  function ResultFor(q: LegacyQuestion, answers: map<int, string>): (r: QuizResult)
    ensures r.question == q.question && r.correctAnswer == q.correctAnswer
    ensures r.userAnswer == if q.id in answers && answers[q.id] != "" then answers[q.id] else NotAnswered
    ensures r.isCorrect <==> q.id in answers && answers[q.id] == q.correctAnswer
  {
    var stored := if q.id in answers then Some(answers[q.id]) else None;
    var truthy := stored.Some? && stored.value != "";
    QuizResult(q.question,
               if truthy then stored.value else NotAnswered,
               q.correctAnswer,
               stored == Some(q.correctAnswer))
  }

  /** getResults: one entry per question, in question order. */
  function Results(questions: seq<LegacyQuestion>, answers: map<int, string>): (rs: seq<QuizResult>)
    ensures |rs| == |questions|
    ensures forall i :: 0 <= i < |rs| ==> rs[i] == ResultFor(questions[i], answers)
  {
    seq(|questions|, i requires 0 <= i < |questions| => ResultFor(questions[i], answers))
  }

  /** The number of questions whose stored answer is exactly their correct
      answer. */
  function CountMatching(questions: seq<LegacyQuestion>, answers: map<int, string>): (c: nat)
    ensures c <= |questions|
  {
    if questions == [] then 0
    else
      var q := questions[|questions| - 1];
      var stored := if q.id in answers then Some(answers[q.id]) else None;
      CountMatching(questions[..|questions| - 1], answers) + (if stored == Some(q.correctAnswer) then 1 else 0)
  }

  /** getScore: matching answers out of the number of questions. */
  function Score(questions: seq<LegacyQuestion>, answers: map<int, string>): (r: ScoreSummary)
    ensures r.total == |questions|
    ensures r.score <= r.total
  {
    ScoreSummary(CountMatching(questions, answers), |questions|)
  }

  /** The service object: the published question list and the answer map,
      both replaced or mutated in place. */
  class LegacyQuizService {
    var questions: seq<LegacyQuestion>
    var userAnswers: map<int, string>

    constructor()
      ensures questions == [] && userAnswers == map[]
    {
      questions := [];
      userAnswers := map[];
    }

    /** Publishing a freshly fetched list (the `next` call inside
        loadQuestions); the answers are kept. */
    method PublishQuestions(fetched: seq<LegacyQuestion>)
      modifies this
      ensures questions == fetched
      ensures userAnswers == old(userAnswers)
    {
      questions := fetched;
    }

    /** Stores the answer under the given id, whether or not a loaded
        question has that id, replacing an earlier answer. */
    method SubmitAnswer(questionId: int, answer: string)
      modifies this
      ensures userAnswers == old(userAnswers)[questionId := answer]
      ensures questions == old(questions)
    {
      userAnswers := userAnswers[questionId := answer];
    }

    method ResetQuiz()
      modifies this
      ensures userAnswers == map[]
      ensures questions == old(questions)
    {
      userAnswers := map[];
    }
  }

  // ---------------------------------------------------------------------
  // Properties

  /** The score always equals the number of results marked correct, although
      the two are computed separately. */
  lemma {:induction false} ScoreAgreesWithResults(questions: seq<LegacyQuestion>, answers: map<int, string>)
    ensures Score(questions, answers).score == CountCorrect(Results(questions, answers))
    decreases |questions|
  {
    if questions != [] {
      var n := |questions| - 1;
      var front := questions[..n];
      ScoreAgreesWithResults(front, answers);
      assert Results(questions, answers)[..n] == Results(front, answers);
    }
  }

  /** An empty stored answer is shown as "Not answered" yet counts as correct
      when the correct answer is the empty string. */
  lemma EmptyAnswerShownUnansweredButCorrect(q: LegacyQuestion)
    requires q.correctAnswer == ""
    ensures var answers := map[q.id := ""];
            && Results([q], answers)[0].userAnswer == NotAnswered
            && Results([q], answers)[0].isCorrect
            && Score([q], answers) == ScoreSummary(1, 1)
  {
  }

  /** An answer stored under an id that no loaded question has changes
      neither the results nor the score. */
  lemma {:induction false} ForeignAnswersIgnored(questions: seq<LegacyQuestion>, answers: map<int, string>, id: int, answer: string)
    requires forall i :: 0 <= i < |questions| ==> questions[i].id != id
    ensures Results(questions, answers[id := answer]) == Results(questions, answers)
    ensures Score(questions, answers[id := answer]) == Score(questions, answers)
    decreases |questions|
  {
    if questions != [] {
      ForeignAnswersIgnored(questions[..|questions| - 1], answers, id, answer);
    }
  }

  /** Submitting for a loaded question: its result shows the latest answer
      (unless empty) and is correct exactly when that answer is its correct
      answer; a second submit replaces the first. */
  lemma SubmitThenResults(questions: seq<LegacyQuestion>, answers: map<int, string>, i: nat, first: string, second: string)
    requires i < |questions|
    ensures var r := Results(questions, answers[questions[i].id := first][questions[i].id := second])[i];
            && r.userAnswer == (if second == "" then NotAnswered else second)
            && (r.isCorrect <==> second == questions[i].correctAnswer)
  {
  }

  /** After a reset nothing is answered: every result shows "Not answered",
      none is correct, and the score is zero out of the loaded count. */
  lemma ResetClearsResults(questions: seq<LegacyQuestion>)
    ensures forall i :: 0 <= i < |questions| ==>
              Results(questions, map[])[i].userAnswer == NotAnswered && !Results(questions, map[])[i].isCorrect
    ensures Score(questions, map[]) == ScoreSummary(0, |questions|)
  {
    ScoreAgreesWithResults(questions, map[]);
  }
}
