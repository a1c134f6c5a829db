// The quiz session state machine of the front end's quiz service: one
// QuizState record that the service replaces wholesale on every action, the
// readers derived from it (current question, progress, last-question flag,
// results and score), and the four actions that replace it.

module QuizSession {
  import opened QuizTypes

  /** The state a fresh service starts in. */
  const Initial: QuizState := QuizState(0, [], map[])

  /** The index points at a question whenever there is one. (On an empty list
      the index is unconstrained: nextQuestion keeps incrementing it.) */
  predicate InRange(s: QuizState)
  {
    s.questions != [] ==> s.currentQuestionIndex < |s.questions|
  }

  // ---------------------------------------------------------------------
  // Readers

  /** questions[index], which is undefined past the end of the list. */
  function CurrentQuestion(s: QuizState): (q: Option<Question>)
    ensures InRange(s) ==> (q.Some? <==> s.questions != [])
    ensures q.Some? ==> s.currentQuestionIndex < |s.questions| && q.value == s.questions[s.currentQuestionIndex]
  {
    if s.currentQuestionIndex < |s.questions| then Some(s.questions[s.currentQuestionIndex]) else None
  }

  /** Percentage of the quiz reached, counting the current question as
      reached; 0 when there are no questions. Exact arithmetic. */
  function Progress(s: QuizState): (p: real)
    ensures s.questions == [] ==> p == 0.0
    ensures InRange(s) && s.questions != [] ==> 0.0 < p <= 100.0
  {
    var total := |s.questions|;
    if total != 0 then ((s.currentQuestionIndex + 1) as real / total as real) * 100.0 else 0.0
  }

  /** index === questions.length - 1, which on an empty list compares 0 with -1. */
  predicate IsLastQuestion(s: QuizState)
    ensures IsLastQuestion(s) ==> s.questions != [] && CurrentQuestion(s) == Some(s.questions[|s.questions| - 1])
    ensures s.questions == [] ==> !IsLastQuestion(s)
  {
    s.currentQuestionIndex == |s.questions| - 1
  }

  /** The result entry of one question: the stored answer (or the
      "Not answered" text), and whether a stored answer equals the correct one. */
  function ResultFor(q: Question, answers: map<string, string>): (r: QuizResult)
    ensures r.question == q.question && r.correctAnswer == q.correctAnswer
    ensures IdKey(q.id) in answers ==> r.userAnswer == answers[IdKey(q.id)]
    ensures IdKey(q.id) !in answers ==> r.userAnswer == NotAnswered && !r.isCorrect
    ensures r.isCorrect <==> IdKey(q.id) in answers && answers[IdKey(q.id)] == q.correctAnswer
  {
    var stored := if IdKey(q.id) in answers then Some(answers[IdKey(q.id)]) else None;
    QuizResult(q.question,
               if stored.Some? then stored.value else NotAnswered,
               q.correctAnswer,
               stored == Some(q.correctAnswer))
  }

  /** One result per question, in question order. */
  function Results(s: QuizState): (rs: seq<QuizResult>)
    ensures |rs| == |s.questions|
    ensures forall i :: 0 <= i < |rs| ==> rs[i] == ResultFor(s.questions[i], s.userAnswers)
  {
    seq(|s.questions|, i requires 0 <= i < |s.questions| => ResultFor(s.questions[i], s.userAnswers))
  }

  /** The number of correct results out of the number of results. */
  function Score(s: QuizState): (r: ScoreSummary)
    ensures r.total == |s.questions|
    ensures r.score <= r.total
  {
    var rs := Results(s);
    ScoreSummary(CountCorrect(rs), |rs|)
  }

  // ---------------------------------------------------------------------
  // Transitions: the new state each action computes from the old one

  /** setQuestions(questions) */
  function Loaded(s: QuizState, questions: seq<Question>): (r: QuizState)
    ensures r.questions == questions && r.currentQuestionIndex == 0 && r.userAnswers == map[]
    ensures InRange(r)
  {
    s.(questions := questions, currentQuestionIndex := 0, userAnswers := map[])
  }

  /** submitAnswer(answer) */
  function Answered(s: QuizState, answer: string): (r: QuizState)
    ensures r.questions == s.questions && r.currentQuestionIndex == s.currentQuestionIndex
    ensures CurrentQuestion(s).None? ==> r == s
    ensures CurrentQuestion(s).Some? ==>
              var key := IdKey(CurrentQuestion(s).value.id);
              && r.userAnswers.Keys == s.userAnswers.Keys + {key}
              && r.userAnswers[key] == answer
              && forall k :: k in s.userAnswers && k != key ==> r.userAnswers[k] == s.userAnswers[k]
    ensures InRange(s) ==> InRange(r)
  {
    match CurrentQuestion(s)
    case None => s
    case Some(q) => s.(userAnswers := s.userAnswers[IdKey(q.id) := answer])
  }

  /** nextQuestion() */
  function Advanced(s: QuizState): (r: QuizState)
    ensures r.questions == s.questions && r.userAnswers == s.userAnswers
    ensures r.currentQuestionIndex == s.currentQuestionIndex || r.currentQuestionIndex == s.currentQuestionIndex + 1
    ensures r.currentQuestionIndex == s.currentQuestionIndex <==> IsLastQuestion(s)
    ensures InRange(s) ==> InRange(r)
  {
    if !IsLastQuestion(s) then s.(currentQuestionIndex := s.currentQuestionIndex + 1) else s
  }

  /** resetQuiz() */
  function Restarted(s: QuizState): (r: QuizState)
    ensures r.questions == s.questions && r.currentQuestionIndex == 0 && r.userAnswers == map[]
    ensures InRange(r)
  {
    s.(currentQuestionIndex := 0, userAnswers := map[])
  }

  // ---------------------------------------------------------------------
  // The service object

  /** The service holds the state record and replaces it on every action. */
  class QuizService {
    var state: QuizState

    ghost predicate Valid()
      reads this
    {
      InRange(state)
    }

    constructor()
      ensures Valid()
      ensures state == Initial
    {
      state := Initial;
    }

    method SetQuestions(questions: seq<Question>)
      requires Valid()
      modifies this
      ensures Valid()
      ensures state == Loaded(old(state), questions)
    {
      state := state.(questions := questions, currentQuestionIndex := 0, userAnswers := map[]);
    }

    method SubmitAnswer(answer: string)
      requires Valid()
      modifies this
      ensures Valid()
      ensures state == Answered(old(state), answer)
    {
      var current := CurrentQuestion(state);
      if current.None? {
        return;
      }
      state := state.(userAnswers := state.userAnswers[IdKey(current.value.id) := answer]);
    }

    method NextQuestion()
      requires Valid()
      modifies this
      ensures Valid()
      ensures state == Advanced(old(state))
    {
      if !IsLastQuestion(state) {
        state := state.(currentQuestionIndex := state.currentQuestionIndex + 1);
      }
    }

    method ResetQuiz()
      requires Valid()
      modifies this
      ensures Valid()
      ensures state == Restarted(old(state))
    {
      state := state.(currentQuestionIndex := 0, userAnswers := map[]);
    }
  }

  // ---------------------------------------------------------------------
  // Properties

  /** Loading a question list discards the whole prior session, so loading
      the same list twice gives the same state as loading it once. */
  lemma LoadedForgetsPriorState(s: QuizState, t: QuizState, questions: seq<Question>)
    ensures Loaded(s, questions) == Loaded(t, questions)
    ensures Loaded(Loaded(s, questions), questions) == Loaded(s, questions)
    ensures CurrentQuestion(Loaded(s, questions)) == if questions == [] then None else Some(questions[0])
  {
  }

  /** The last-question flag holds exactly on the final position of a
      non-empty list; it never holds on an empty list. */
  lemma IsLastQuestionExactly(s: QuizState)
    ensures IsLastQuestion(s) <==> s.questions != [] && s.currentQuestionIndex == |s.questions| - 1
    ensures s.currentQuestionIndex < |s.questions| - 1 ==> !IsLastQuestion(s)
  {
  }

  /** A submit never moves the current question, and on a non-empty list
      nextQuestion never runs past the end: a current question remains, and
      it is one of the loaded questions. */
  lemma CurrentQuestionInRange(s: QuizState, answer: string)
    requires InRange(s)
    ensures CurrentQuestion(Answered(s, answer)) == CurrentQuestion(s)
    ensures s.questions != [] ==>
              CurrentQuestion(Advanced(s)).Some? && CurrentQuestion(Advanced(s)).value in s.questions
  {
  }

  /** The state after n calls of nextQuestion. */
  function AdvancedTimes(s: QuizState, n: nat): QuizState
  {
    if n == 0 then s else Advanced(AdvancedTimes(s, n - 1))
  }

  /** Repeated nextQuestion calls climb one step at a time and stay pinned
      at the last question of a non-empty list; on an empty list they keep
      incrementing the index. Nothing but the index ever changes. */
  lemma {:induction false} AdvancedTimesSaturates(s: QuizState, n: nat)
    ensures AdvancedTimes(s, n).questions == s.questions
    ensures AdvancedTimes(s, n).userAnswers == s.userAnswers
    ensures InRange(s) && s.questions != [] ==>
              AdvancedTimes(s, n).currentQuestionIndex
                == if s.currentQuestionIndex + n < |s.questions| then s.currentQuestionIndex + n else |s.questions| - 1
    ensures s.questions == [] ==> AdvancedTimes(s, n).currentQuestionIndex == s.currentQuestionIndex + n
  {
    if n > 0 {
      AdvancedTimesSaturates(s, n - 1);
    }
  }

  /** Progress strictly grows with every nextQuestion until the last
      question, where it stays at exactly 100. */
  lemma ProgressGrowsUntilLast(s: QuizState)
    requires InRange(s) && s.questions != []
    ensures !IsLastQuestion(s) ==> Progress(Advanced(s)) > Progress(s)
    ensures IsLastQuestion(s) ==> Progress(Advanced(s)) == Progress(s) == 100.0
  {

  }

  /** On a non-empty list progress is 100 exactly on the last question. */
  lemma ProgressFullExactlyOnLast(s: QuizState)
    requires InRange(s) && s.questions != []
    ensures Progress(s) == 100.0 <==> IsLastQuestion(s)
  {

  }

  /** Submitting twice for the same question keeps only the second answer. */
  lemma AnsweredLastWriteWins(s: QuizState, first: string, second: string)
    ensures Answered(Answered(s, first), second) == Answered(s, second)
  {
  }

  /** After a submit, every question sharing the current question's key
      shows the submitted answer and is marked by comparing it with its
      correct answer; every other result is unchanged. */
  lemma AnsweredShowsInResults(s: QuizState, answer: string, j: nat)
    requires CurrentQuestion(s).Some?
    requires j < |s.questions|
    ensures var key := IdKey(CurrentQuestion(s).value.id);
            var r := Results(Answered(s, answer))[j];
            if IdKey(s.questions[j].id) == key then
              r.userAnswer == answer && (r.isCorrect <==> answer == s.questions[j].correctAnswer)
            else
              r == Results(s)[j]
  {

  }

  /** The indices of the questions whose stored answer equals their correct
      answer. */
  function CorrectlyAnswered(s: QuizState): set<nat>
  {
    set i: nat | i < |s.questions|
                 && IdKey(s.questions[i].id) in s.userAnswers
                 && s.userAnswers[IdKey(s.questions[i].id)] == s.questions[i].correctAnswer
  }

  /** The score counts exactly the questions answered correctly, which are
      exactly the results marked correct. */
  lemma ScoreCountsCorrectQuestions(s: QuizState)
    ensures Score(s).score == |CorrectlyAnswered(s)|
    ensures Score(s).score == |CorrectPositions(Results(s))|
  {
    var rs := Results(s);
    CountCorrectIsCardinality(rs);
    assert CorrectPositions(rs) == CorrectlyAnswered(s);
  }

  /** After a reset the first question is current again and every result is
      "Not answered" and incorrect, so the score is zero. */
  lemma RestartedClearsSession(s: QuizState)
    ensures CurrentQuestion(Restarted(s)) == if s.questions == [] then None else Some(s.questions[0])
    ensures forall i :: 0 <= i < |s.questions| ==>
              Results(Restarted(s))[i].userAnswer == NotAnswered && !Results(Restarted(s))[i].isCorrect
    ensures Score(Restarted(s)) == ScoreSummary(0, |s.questions|)
  {
  }

  /** An unanswered question is never correct, even when its correct answer
      is the "Not answered" text itself; answering with that text is. */
  lemma NotAnsweredTextIsNotAnAnswer(q: Question)
    requires q.correctAnswer == NotAnswered
    ensures ResultFor(q, map[]).userAnswer == q.correctAnswer
    ensures !ResultFor(q, map[]).isCorrect
    ensures ResultFor(q, map[IdKey(q.id) := NotAnswered]).isCorrect
  {
  }

  // ---------------------------------------------------------------------
  // Driving the service as the quiz page does

  /** One press of the quiz page's submit button with a selection (the page
      ignores the press while nothing is selected): record the answer, then
      move on unless this was the last question (there the page saves and
      leaves instead). */
  function SubmitAndAdvance(s: QuizState, answer: string): (r: QuizState)
    requires answer != ""
    ensures r.questions == s.questions
    ensures CurrentQuestion(s).Some? ==> r.userAnswers == s.userAnswers[IdKey(CurrentQuestion(s).value.id) := answer]
    ensures CurrentQuestion(s).None? ==> r.userAnswers == s.userAnswers
    ensures InRange(s) && s.questions != [] ==>
              r.currentQuestionIndex == if s.currentQuestionIndex + 1 < |s.questions| then s.currentQuestionIndex + 1
                                        else |s.questions| - 1
    ensures s.questions == [] ==> r.currentQuestionIndex == s.currentQuestionIndex + 1
  {
    var t := Answered(s, answer);
    if IsLastQuestion(t) then t else Advanced(t)
  }

  /** The state after pressing submit once per given answer: the list is
      kept, and on a non-empty list the index moves one step per press but
      never past the last question. */
  function Play(s: QuizState, answers: seq<string>): (r: QuizState)
    requires forall i :: 0 <= i < |answers| ==> answers[i] != ""
    ensures r.questions == s.questions
    ensures InRange(s) && s.questions != [] ==>
              r.currentQuestionIndex == if s.currentQuestionIndex + |answers| < |s.questions|
                                        then s.currentQuestionIndex + |answers| else |s.questions| - 1
    decreases |answers|
  {
    if answers == [] then s else Play(SubmitAndAdvance(s, answers[0]), answers[1..])
  }

  predicate DistinctKeys(questions: seq<Question>)
  {
    forall i, j :: 0 <= i < j < |questions| ==> IdKey(questions[i].id) != IdKey(questions[j].id)
  }

  lemma {:induction false} PlayFrom(s: QuizState, all: seq<string>, k: nat)
    requires s.questions != [] && DistinctKeys(s.questions)
    requires |all| == |s.questions| && k < |all|
    requires forall j :: 0 <= j < |all| ==> all[j] != ""
    requires s.currentQuestionIndex == k
    requires forall j :: 0 <= j < k ==>
               IdKey(s.questions[j].id) in s.userAnswers && s.userAnswers[IdKey(s.questions[j].id)] == all[j]
    ensures Play(s, all[k..]).questions == s.questions
    ensures Play(s, all[k..]).currentQuestionIndex == |s.questions| - 1
    ensures forall j :: 0 <= j < |all| ==>
              IdKey(s.questions[j].id) in Play(s, all[k..]).userAnswers
              && Play(s, all[k..]).userAnswers[IdKey(s.questions[j].id)] == all[j]
    decreases |all| - k
  {
    var n := |all|;
    var t := Answered(s, all[k]);
    var key := IdKey(s.questions[k].id);
    assert CurrentQuestion(s) == Some(s.questions[k]);
    assert t.userAnswers == s.userAnswers[key := all[k]];
    forall j | 0 <= j <= k
      ensures IdKey(s.questions[j].id) in t.userAnswers && t.userAnswers[IdKey(s.questions[j].id)] == all[j]
    {
      if j < k {
        assert IdKey(s.questions[j].id) != key;
      }
    }
    assert all[k..][0] == all[k] && all[k..][1..] == all[k + 1..];
    if k == n - 1 {
      assert SubmitAndAdvance(s, all[k]) == t;
      assert all[k + 1..] == [];
    } else {
      var u := Advanced(t);
      assert SubmitAndAdvance(s, all[k]) == u;
      assert u.currentQuestionIndex == k + 1;
      PlayFrom(u, all, k + 1);
    }
  }

  /** Loading a list of questions with distinct keys and answering every
      question in turn ends on the last question with each result showing
      the answer given for it, and the score counting the answers that equal
      their question's correct answer. */
  lemma PlayThrough(s: QuizState, questions: seq<Question>, answers: seq<string>)
    requires questions != [] && DistinctKeys(questions)
    requires |answers| == |questions|
    requires forall i :: 0 <= i < |answers| ==> answers[i] != ""
    ensures var f := Play(Loaded(s, questions), answers);
            && f.currentQuestionIndex == |questions| - 1
            && IsLastQuestion(f)
            && (forall i :: 0 <= i < |questions| ==>
                  Results(f)[i].userAnswer == answers[i]
                  && (Results(f)[i].isCorrect <==> answers[i] == questions[i].correctAnswer))
            && Score(f).score == |set i: nat | i < |questions| && answers[i] == questions[i].correctAnswer|
  {
    var s0 := Loaded(s, questions);
    assert answers[0..] == answers;
    PlayFrom(s0, answers, 0);
    ResultsOfRecordedAnswers(Play(s0, answers), answers);
  }

  /** When every question's key holds the answer given for it, each result
      shows that answer, and the score counts the answers equal to their
      question's correct answer. */
  lemma ResultsOfRecordedAnswers(f: QuizState, answers: seq<string>)
    requires |answers| == |f.questions|
    requires forall j :: 0 <= j < |answers| ==>
               IdKey(f.questions[j].id) in f.userAnswers && f.userAnswers[IdKey(f.questions[j].id)] == answers[j]
    ensures forall i :: 0 <= i < |answers| ==>
              Results(f)[i].userAnswer == answers[i]
              && (Results(f)[i].isCorrect <==> answers[i] == f.questions[i].correctAnswer)
    ensures Score(f).score == |set i: nat | i < |answers| && answers[i] == f.questions[i].correctAnswer|
  {
    ScoreCountsCorrectQuestions(f);
    assert CorrectlyAnswered(f) == set i: nat | i < |answers| && answers[i] == f.questions[i].correctAnswer;
  }

  /** Three questions answered "B", "A", "X" against correct answers "B",
      "A", "C": two out of three, the third marked incorrect. */
  lemma ThreeQuestionRun(qs: seq<Question>, answers: seq<string>)
    requires qs == [Question(NumId(1), "q1", ["A", "B"], "B"),
                    Question(NumId(2), "q2", ["A", "B"], "A"),
                    Question(NumId(3), "q3", ["A", "C"], "C")]
    requires answers == ["B", "A", "X"]
    ensures Score(Play(Loaded(Initial, qs), answers)) == ScoreSummary(2, 3)
    ensures !Results(Play(Loaded(Initial, qs), answers))[2].isCorrect
  {
    NumericKeysInjective(1, 2);
    NumericKeysInjective(1, 3);
    NumericKeysInjective(2, 3);
    PlayThrough(Initial, qs, answers);
    TwoOfThreeCorrect(Results(Play(Loaded(Initial, qs), answers)));
  }

  lemma TwoOfThreeCorrect(rs: seq<QuizResult>)
    requires |rs| == 3 && rs[0].isCorrect && rs[1].isCorrect && !rs[2].isCorrect
    ensures CountCorrect(rs) == 2
  {
    assert CountCorrect(rs[..1]) == 1 by {
      assert rs[..1][..0] == [];
    }
    assert CountCorrect(rs[..2]) == 2 by {
      assert rs[..2][..1] == rs[..1];
    }
  }

  /** An empty question list: no current question, zero progress, never the
      last question, a zero-out-of-zero score; a submit changes nothing. */
  lemma EmptyQuizRun(s: QuizState, answer: string)
    ensures var e := Loaded(s, []);
            && CurrentQuestion(e).None?
            && Progress(e) == 0.0
            && !IsLastQuestion(e)
            && Score(e) == ScoreSummary(0, 0)
            && Answered(e, answer) == e
            && Advanced(e).currentQuestionIndex == 1
  {
  }
}
