# Quiz session and result façade — a Dafny model

This project models the logic core of a small quiz web application:

- **The quiz session state machine** of the front end's quiz service
  (`src/app/services/quiz.service.ts`). A session is one `QuizState` record: the loaded
  questions, the current question index, and a map from `String(question.id)` to the
  submitted answer. The readers (current question, progress, last-question flag,
  results, score) are functions of that record. Each action (`setQuestions`,
  `submitAnswer`, `nextQuestion`, `resetQuiz`) is a pure transition `QuizState -> QuizState`.
  The service object is the class `QuizSession.QuizService`, whose `state` field the
  methods replace. Each method is proved to produce exactly what its transition
  function produces.
- **The older answer/score service** (`angular-quiz/src/app/services/quiz.service.ts`).
  It keeps a published question list and a mutable map from numeric id to answer.
  Results and score are computed on demand. The class `LegacyQuiz.LegacyQuizService`
  holds the two fields. The results and score are functions of them.
- **The serverless HTTP façade** (`functions/index.js`). It covers:
  - the validation guards of `POST /api/questions` and `POST /api/submit`;
  - the unvalidated `PUT /api/questions/:id`;
  - the exact records these handlers write;
  - the score sum and zero guard of `GET /api/stats`.

  Request bodies are a small JSON value type with JavaScript truthiness. The document
  store is an append-only log of the writes it accepted (`QuizApi.DocumentStore`). Its
  answers are parameters: the id it assigns, or a failure. This makes "a rejected
  request writes nothing" a statement about the log.

Files: `quiz_types.dfy` (shared types, `String(id)` keys, counting),
`quiz_session.dfy`, `legacy_quiz.dfy`, `quiz_api.dfy`.

Modelling choices:
- A question id is a number or a string. Numbers are integers, and `String(n)` is their
  decimal text (`QuizTypes.IdKey`), which is what JavaScript gives for integers of
  magnitude below 10^21. So ids `1` and `"1"` share one answer slot, while distinct
  numbers never do.
- `progress` uses exact real arithmetic.
- Answer keys and answers are strings, compared by exact equality.
- The current question is `questions[index]`, which is `undefined` past the end. The
  index therefore goes out of range only on an empty list.

Code quirks the model keeps:
- On an empty question list, `isLastQuestion` compares `0` with `-1` and is false. So
  `nextQuestion` keeps incrementing the index instead of saturating. Saturation holds
  only for non-empty lists (`QuizSession.AdvancedTimesSaturates`).
- `setQuestions([])` sets the index to 0 rather than to a "no question" marker.
- `POST /api/questions` rejects more than a missing `question`: it also rejects any
  falsy value, such as the empty string. It accepts an empty `options` array.
- The older service shows an empty stored answer as "Not answered". It still counts that
  answer as correct when the correct answer is the empty string
  (`LegacyQuiz.EmptyAnswerShownUnansweredButCorrect`).

## Model

| member | source | states |
|---|---|---|
| `QuizTypes.IntToDecimal` | src/app/services/quiz.service.ts:61 | `String(n)` of an integer is non-empty, starts with a minus sign exactly when n is negative, and is otherwise made of decimal digits with no leading zero (a leading 0 only in "0" itself) |
| `QuizTypes.IdKey` | src/app/services/quiz.service.ts:61 | the answer key of a string id is the id itself; that of a numeric id is a decimal numeral, signed exactly when the id is negative |
| `QuizTypes.NatToDecimal` | src/app/services/quiz.service.ts:61 | `String(n)` of a natural number is non-empty, all decimal digits, one digit exactly below 10, and has no leading zero unless n is 0 |
| `QuizTypes.NatToDecimalInjective` | src/app/services/quiz.service.ts:61 | distinct natural numbers have distinct decimal texts |
| `QuizTypes.NumericKeysInjective` | src/app/services/quiz.service.ts:61 | two numeric ids share an answer key only if they are equal, negative ids included |
| `QuizTypes.NatToDecimalRoundTrip` | src/app/services/quiz.service.ts:61 | the decimal text of a natural number denotes that number |
| `QuizTypes.CanonicalRoundTrip` | src/app/services/quiz.service.ts:61 | every canonical numeral (digits, no leading zero) is the text of the number it denotes |
| `QuizTypes.NumericAndStringIdsShareSlot` | src/app/services/quiz.service.ts:61 | a non-negative numeric id n and a string id s share an answer slot iff s is the canonical numeral denoting n ("7" does; "07", "7.0" do not) |
| `QuizTypes.NumericAndStringIdsCollide` | src/app/services/quiz.service.ts:78 | the numeric id 1 and the string id "1" (and -12 and "-12") use the same answer key |
| `QuizTypes.CountCorrect` | src/app/services/quiz.service.ts:87 | the count of correct results is at most the number of results, and 0 when none is correct |
| `QuizTypes.CountCorrectIsCardinality` | src/app/services/quiz.service.ts:87 | the filtered count equals the number of positions holding a correct result |
| `QuizSession.CurrentQuestion` | src/app/services/quiz.service.ts:20-24 | there is a current question exactly when the index points into the list (so, with the index in range, exactly when the list is non-empty), and it is the question at the index |
| `QuizSession.IsLastQuestion` | src/app/services/quiz.service.ts:31-33 | when the flag holds the list is non-empty and the current question is its final one; on an empty list the flag is false |
| `QuizSession.Progress` | src/app/services/quiz.service.ts:26-29 | progress is 0 with no questions, and lies in (0, 100] whenever the index points into a non-empty list |
| `QuizSession.ResultFor` | src/app/services/quiz.service.ts:76-81 | a result shows the stored answer or "Not answered", and is correct iff an answer is stored and equals the correct answer; an unanswered question is never correct |
| `QuizSession.Results` | src/app/services/quiz.service.ts:74-82 | exactly one result per question, in question order, each judged against the current answers |
| `QuizSession.Score` | src/app/services/quiz.service.ts:84-90 | the total is the number of questions and the score never exceeds it |
| `QuizSession.Loaded` | src/app/services/quiz.service.ts:45-52 | `setQuestions` yields the given list, index 0 and no answers, and the index is in range |
| `QuizSession.Answered` | src/app/services/quiz.service.ts:55-63 | `submitAnswer` with no current question changes nothing; otherwise it stores the answer under the current question's key, keeps every other answer, the index and the list, and keeps the index in range |
| `QuizSession.Advanced` | src/app/services/quiz.service.ts:65-72 | `nextQuestion` moves the index up by one exactly when not on the last question, changes nothing else, and keeps the index in range |
| `QuizSession.Restarted` | src/app/services/quiz.service.ts:92-98 | `resetQuiz` keeps the list, sets index 0 and clears the answers |
| `QuizSession.QuizService.constructor` | src/app/services/quiz.service.ts:13-17 | a new service has index 0, no questions and no answers |
| `QuizSession.QuizService.SetQuestions` | src/app/services/quiz.service.ts:45-52 | the new state is the `setQuestions` transition of the old one; the index invariant is kept |
| `QuizSession.QuizService.SubmitAnswer` | src/app/services/quiz.service.ts:55-63 | the guarded update leaves exactly the `submitAnswer` transition of the old state |
| `QuizSession.QuizService.NextQuestion` | src/app/services/quiz.service.ts:65-72 | the guarded increment leaves exactly the `nextQuestion` transition of the old state |
| `QuizSession.QuizService.ResetQuiz` | src/app/services/quiz.service.ts:92-98 | the new state is the `resetQuiz` transition of the old one |
| `QuizSession.LoadedForgetsPriorState` | src/app/services/quiz.service.ts:45-52 | `setQuestions` ignores the prior state, is idempotent, and makes the first question (if any) current |
| `QuizSession.IsLastQuestionExactly` | src/app/services/quiz.service.ts:31-33 | the last-question flag holds iff the list is non-empty and the index is its final position; it is false before the final position |
| `QuizSession.CurrentQuestionInRange` | src/app/services/quiz.service.ts:20-72 | with the index in range, a submit leaves the current question as it was, and on a non-empty list `nextQuestion` still leaves a current question, one of the loaded ones |
| `QuizSession.AdvancedTimesSaturates` | src/app/services/quiz.service.ts:65-72 | n calls of `nextQuestion` give index min(index + n, length - 1) on a non-empty list with no wrap-around, index + n on an empty list, and change nothing else |
| `QuizSession.ProgressGrowsUntilLast` | src/app/services/quiz.service.ts:26-33 | `nextQuestion` strictly increases progress before the last question, and leaves it at exactly 100 on the last |
| `QuizSession.ProgressFullExactlyOnLast` | src/app/services/quiz.service.ts:26-33 | on a non-empty list, progress is 100 iff the current question is the last |
| `QuizSession.AnsweredLastWriteWins` | src/app/services/quiz.service.ts:59-62 | two submits in a row leave the state a single submit of the second answer leaves |
| `QuizSession.AnsweredShowsInResults` | src/app/services/quiz.service.ts:55-82 | after a submit, every question sharing the current key shows the new answer and is correct iff it equals that question's correct answer; other results are unchanged |
| `QuizSession.ScoreCountsCorrectQuestions` | src/app/services/quiz.service.ts:84-90 | the score equals the number of questions whose stored answer equals their correct answer, and the number of results marked correct |
| `QuizSession.RestartedClearsSession` | src/app/services/quiz.service.ts:92-98 | after a reset the first question (if any) is current, every result is "Not answered" and incorrect, and the score is 0 out of the question count |
| `QuizSession.NotAnsweredTextIsNotAnAnswer` | src/app/services/quiz.service.ts:78-80 | with correct answer "Not answered", an unanswered question shows that text but is incorrect, while answering it with that text is correct |
| `QuizSession.SubmitAndAdvance` | src/app/components/quiz/quiz.ts:112-125 | one press with a non-empty selection keeps the list, records the answer under the current question's key (nothing without a current question), and moves the index one step but not past the last question; on an empty list the index still moves |
| `QuizSession.Play` | src/app/components/quiz/quiz.ts:112-125 | pressing submit once per (non-empty) answer keeps the list and, on a non-empty list, leaves the index at min(index + presses, length - 1) |
| `QuizSession.ResultsOfRecordedAnswers` | src/app/services/quiz.service.ts:74-90 | when each question's key holds the answer given for it, every result shows that answer and is correct iff it equals the correct answer, and the score counts those answers |
| `QuizSession.PlayFrom` | src/app/components/quiz/quiz.ts:112-125 | answering questions k..end in turn from index k keeps the earlier answers, records each new one under its own key, and ends on the last question |
| `QuizSession.PlayThrough` | src/app/components/quiz/quiz.ts:112-125 | loading questions with distinct keys and answering each in turn ends on the last question, every result shows its given answer, and the score counts the answers equal to their correct answers |
| `QuizSession.ThreeQuestionRun` | src/app/services/quiz.service.ts:74-90 | three questions with correct answers B, A, C answered B, A, X score 2 out of 3, and the third is incorrect |
| `QuizSession.EmptyQuizRun` | src/app/services/quiz.service.ts:20-72 | with no questions: no current question, progress 0, never the last question, score 0 of 0, a submit changes nothing, and `nextQuestion` still increments the index |
| `LegacyQuiz.ResultFor` | angular-quiz/src/app/services/quiz.service.ts:49-54 | a result shows the stored answer unless it is missing or empty ("Not answered" then), and is correct iff the raw stored answer equals the correct answer |
| `LegacyQuiz.Results` | angular-quiz/src/app/services/quiz.service.ts:47-55 | exactly one result per question, in question order |
| `LegacyQuiz.CountMatching` | angular-quiz/src/app/services/quiz.service.ts:58-61 | the number of questions whose stored answer matches never exceeds the number of questions |
| `LegacyQuiz.Score` | angular-quiz/src/app/services/quiz.service.ts:57-66 | the total is the number of loaded questions and the score never exceeds it |
| `LegacyQuiz.LegacyQuizService.constructor` | angular-quiz/src/app/services/quiz.service.ts:25-26 | a new service has no questions and no answers |
| `LegacyQuiz.LegacyQuizService.PublishQuestions` | angular-quiz/src/app/services/quiz.service.ts:33 | publishing a fetched list replaces the questions and keeps the answers |
| `LegacyQuiz.LegacyQuizService.SubmitAnswer` | angular-quiz/src/app/services/quiz.service.ts:43-45 | the answer is stored under the given id, loaded or not, replacing any earlier one; the questions are unchanged |
| `LegacyQuiz.LegacyQuizService.ResetQuiz` | angular-quiz/src/app/services/quiz.service.ts:68-70 | all answers are removed and the questions are unchanged |
| `LegacyQuiz.ScoreAgreesWithResults` | angular-quiz/src/app/services/quiz.service.ts:47-66 | the separately computed score always equals the number of results marked correct |
| `LegacyQuiz.EmptyAnswerShownUnansweredButCorrect` | angular-quiz/src/app/services/quiz.service.ts:51-53 | an empty answer to a question whose correct answer is empty is shown as "Not answered" yet is correct and scores 1 of 1 |
| `LegacyQuiz.ForeignAnswersIgnored` | angular-quiz/src/app/services/quiz.service.ts:47-66 | an answer under an id that no loaded question has changes neither results nor score |
| `LegacyQuiz.SubmitThenResults` | angular-quiz/src/app/services/quiz.service.ts:43-55 | after two submits for a loaded question, its result shows the second (or "Not answered" if empty) and is correct iff the second equals its correct answer |
| `LegacyQuiz.ResetClearsResults` | angular-quiz/src/app/services/quiz.service.ts:68-70 | with no answers, every result is "Not answered" and incorrect, and the score is 0 out of the loaded count |
| `QuizApi.Truthy` | functions/index.js:42 | arrays and objects, empty ones included, are truthy; undefined and null are falsy |
| `QuizApi.FalsyValues` | functions/index.js:42 | exactly undefined, null, false, 0 and the empty string are falsy |
| `QuizApi.QuestionRejected` | functions/index.js:42 | the guard rejects exactly a falsy question, a non-array options value or a non-number correct (the `!options` test adds nothing, since every array is truthy); with an empty options array only question and correct decide |
| `QuizApi.SubmissionRejected` | functions/index.js:98 | an accepted submission has a numeric score and total; any array or object passes as answers, an empty one included |
| `QuizApi.StampedQuestion` | functions/index.js:46-51 | a question record (created, or updated at lines 66-71) has exactly the fields question, options, correct (the request's values) and one timestamp field holding the server timestamp: createdAt on creation, updatedAt on update |
| `QuizApi.AddQuestion` | functions/index.js:37-58 | a 400 happens iff the body has a falsy question, non-array options or a non-number correct, and then the reply is `{error: "Invalid question data"}` with no write; a 200 happens iff the body passes the guard and the store assigns an id, and then exactly one question record is written under that id and the reply is `{id, success: true}`; a store failure on a valid body, or an undestructurable body, gives 500 with no write; nothing but a 200 writes |
| `QuizApi.UpdateQuestion` | functions/index.js:61-78 | the update endpoint never answers 400; it answers 200 and writes the four fields to the given id exactly when the body is destructurable and the store accepts, and otherwise answers 500 with no write |
| `QuizApi.ResultDoc` | functions/index.js:102-108 | a result record has exactly answers, score, totalQuestions, completedAt (the request's values) and submittedAt (the server timestamp) |
| `QuizApi.SubmitResult` | functions/index.js:93-115 | a 400 happens iff answers is falsy or score or totalQuestions is not a number, and then the reply is `{error: "Invalid submission data"}` with no write; a 200 happens iff the body passes the guard and the store assigns an id, and then exactly one result record is written under that id with reply `{id, success: true}`; a store failure on a valid body, or an undestructurable body, gives 500 with no write; every record written has a numeric score |
| `QuizApi.DocumentStore.Add` | functions/index.js:46 | an add appends one record under the store's id, or appends nothing when the store fails |
| `QuizApi.DocumentStore.Update` | functions/index.js:66 | an update appends one entry when the store accepts it, nothing otherwise |
| `QuizApi.PostQuestion` | functions/index.js:37-58 | the sequential handler replies and writes exactly what `AddQuestion` specifies; a 400 leaves the store log unchanged |
| `QuizApi.PutQuestion` | functions/index.js:61-78 | the sequential handler replies and writes exactly what `UpdateQuestion` specifies |
| `QuizApi.PostSubmission` | functions/index.js:93-115 | the sequential handler replies and writes exactly what `SubmitResult` specifies; a 400 leaves the store log unchanged |
| `QuizApi.ScoreTerm` | functions/index.js:128 | a missing or falsy score counts as 0, a number as itself |
| `QuizApi.TotalScore` | functions/index.js:126-129 | the sum of no documents is 0 and of one document its score term; its bounds and the effect of a missing score are the lemmas below |
| `QuizApi.AverageScore` | functions/index.js:131 | the average is 0 when there are no results, and otherwise times the number of results gives back the total |
| `QuizApi.GetStats` | functions/index.js:118-137 | the loop's total equals the sum of the score terms, so the reply carries the two counts and the guarded average |
| `QuizApi.QuestionGuardCases` | functions/index.js:42-44 | an empty options array passes; an empty or missing question, non-array or missing options, and the string "1" as correct are rejected |
| `QuizApi.NonArrayOptionsRejected` | functions/index.js:42-46 | a body whose options is not an array gets 400 and causes no write |
| `QuizApi.SubmissionGuardCases` | functions/index.js:98-100 | any truthy answers value passes with numeric score and total; missing answers, a string score or a null total are rejected |
| `QuizApi.TotalScoreBounds` | functions/index.js:126-129 | scores in [0, hi] sum to between 0 and hi times the number of results |
| `QuizApi.AverageScoreBounds` | functions/index.js:126-131 | scores in [0, hi] give an average in [0, hi] |
| `QuizApi.MissingScoreAddsNothing` | functions/index.js:128 | a result without a (truthy) score leaves the total unchanged |

## Left out

- `loadQuestions` in both services, `saveResults` and the whole document-store client
  and HTTP client services. These are asynchronous I/O against code that is not visible.
  The session id generation uses the clock and randomness. None of this is part of this model.
  Only the state effect of the older service's fetch is modelled, as `PublishQuestions`.
- The reactive plumbing: signal notification, `computed` caching and the older
  service's observable. The readers are plain functions of the state.
- The page components (quiz, results, admin, home) and routing. The quiz page's
  submit-then-advance sequence appears only as the `SubmitAndAdvance`/`Play` scenario.
- Numeric ids that are not integers (`String(1.5)`), and the JavaScript numbers `NaN`,
  `-0` and the infinities in request bodies. Request numbers are exact reals.
- QuizTypes.NatToDecimal / QuizTypes.IntToDecimal / QuizTypes.IdKey /
  QuizTypes.NumericAndStringIdsShareSlot: numeric ids are unbounded integers. JavaScript
  writes integers of magnitude 10^21 or more in exponent form (`String(1e21)` is
  `"1e+21"`), so such an id shares a slot with that string in the program but not in the
  model. Integers beyond 2^53 are not exactly representable as JavaScript numbers at all.
- A press of the quiz page's submit button with nothing selected does nothing, and is
  not modelled: `QuizSession.SubmitAndAdvance` and `QuizSession.Play` take only
  non-empty answers.
- IEEE rounding of `progress`. Exact real arithmetic is used instead.
- The `Math.round(x * 100) / 100` rounding of `averageScore`. The model reports the exact average.
- `GET /api/quiz`, `DELETE /api/questions/:id`, `GET /api/health`, CORS and Express
  setup, and the error logging.
- What the store does with an `undefined` field value in a record. The write is
  recorded as issued. A refusal by the store is the failing reply parameter (a 500 with no write).
- Properties inherited through JavaScript prototypes when a body is not a plain object.
  Only own properties of an object body are read. The property names the handlers read
  are not inherited by arrays, strings, numbers or booleans.
- QuizApi.GetStats: requires every truthy stored score to be a number. The only writer
  of the `quiz-results` collection that this repository contains is `POST /api/submit`,
  and its guard admits only numeric scores (the last ensures of `QuizApi.SubmitResult`).
  The front end's client saves to a different collection, `quizResults`. A truthy
  non-number score would turn the JavaScript `+=` into string concatenation, which is
  not modelled.
- QuizApi.AverageScore: carries the same requirement on stored scores as `GetStats`.
- QuizApi.ScoreTerm: carries the same requirement, for one stored score.
- QuizApi.TotalScore: carries the same requirement on stored scores as `GetStats`.
