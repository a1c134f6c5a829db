// The serverless HTTP façade in front of the document store: request-body
// validation of the write endpoints, the records they write, and the score
// aggregation of the statistics endpoint. The store is an append-only log of
// the writes the handlers issue; what the store answers (the id it assigns,
// or a failure) is a parameter.

module QuizApi {
  import opened QuizTypes

  /** A parsed JSON request body, with `undefined` for a missing property.
      Numbers are exact reals. */
  datatype JsValue =
    | Undefined
    | Null
    | Bool(b: bool)
    | Num(n: real)
    | Str(s: string)
    | Arr(items: seq<JsValue>)
    | Obj(props: map<string, JsValue>)

  /** JavaScript truthiness: undefined, null, false, 0 and "" are falsy. */
  predicate Truthy(v: JsValue)
    ensures v.Arr? || v.Obj? ==> Truthy(v)
    ensures v.Undefined? || v.Null? ==> !Truthy(v)
  {
    match v
    case Undefined => false
    case Null => false
    case Bool(b) => b
    case Num(n) => n != 0.0
    case Str(s) => s != ""
    case Arr(_) => true
    case Obj(_) => true
  }

  /** Exactly five values are falsy; an empty array or object is truthy. */
  lemma FalsyValues(v: JsValue)
    ensures !Truthy(v) <==> v == Undefined || v == Null || v == Bool(false) || v == Num(0.0) || v == Str("")
    ensures Truthy(Arr([])) && Truthy(Obj(map[]))
  {
  }

  /** Destructuring `const { ... } = body` throws on null and undefined. */
  predicate Destructurable(body: JsValue)
  {
    !body.Undefined? && !body.Null?
  }

  /** The value a destructuring pattern picks out for one property name. */
  function Prop(body: JsValue, name: string): JsValue
  {
    if body.Obj? && name in body.props then body.props[name] else Undefined
  }

  /** A stored field: a plain value, or the store's own timestamp sentinel. */
  datatype FieldValue = Value(v: JsValue) | ServerTimestamp

  type Document = map<string, FieldValue>

  /** The writes the handlers issue, in the order the store receives them. */
  datatype Write =
    | Added(collection: string, id: string, doc: Document)
    | Updated(collection: string, docId: string, fields: Document)

  /** What the store answers to an add: the id it assigned, or a failure. */
  datatype AddReply = Assigned(id: string) | AddFailed

  datatype Response = Response(status: nat, body: JsValue)

  /** A handler's reply together with the writes it issued. */
  datatype Outcome = Outcome(response: Response, writes: seq<Write>)

  const QuestionsCollection: string := "questions"
  const ResultsCollection: string := "quiz-results"

  function ErrorBody(message: string): JsValue
  {
    Obj(map["error" := Str(message)])
  }

  const ServerError: Response := Response(500, ErrorBody("Internal server error"))

  function CreatedBody(id: string): JsValue
  {
    Obj(map["id" := Str(id), "success" := Bool(true)])
  }

  // ---------------------------------------------------------------------
  // POST /api/questions

  /** The guard of the question-creation endpoint, as written. */
  predicate QuestionRejected(question: JsValue, options: JsValue, correct: JsValue)
    // The `!options` test is subsumed by the array test: every array is truthy.
    ensures QuestionRejected(question, options, correct) <==> !Truthy(question) || !options.Arr? || !correct.Num?
    ensures options == Arr([]) ==> (QuestionRejected(question, options, correct) <==> !Truthy(question) || !correct.Num?)
  {
    !Truthy(question) || !Truthy(options) || !options.Arr? || !correct.Num?
  }

  /** The question fields a create or an update writes, stamped with the
      server time under the given field name. */
  function StampedQuestion(question: JsValue, options: JsValue, correct: JsValue, stamp: string): (d: Document)
    requires stamp !in {"question", "options", "correct"}
    ensures d.Keys == {"question", "options", "correct", stamp}
    ensures d["question"] == Value(question) && d["options"] == Value(options) && d["correct"] == Value(correct)
    ensures d[stamp] == ServerTimestamp
  {
    map["question" := Value(question), "options" := Value(options), "correct" := Value(correct),
        stamp := ServerTimestamp]
  }

  /** The record stored for a new question. */
  function QuestionDoc(question: JsValue, options: JsValue, correct: JsValue): Document
  {
    StampedQuestion(question, options, correct, "createdAt")
  }

  function AddQuestion(body: JsValue, reply: AddReply): (r: Outcome)
    ensures !Destructurable(body) ==> r == Outcome(ServerError, [])
    ensures r.response.status == 400 ==> r == Outcome(Response(400, ErrorBody("Invalid question data")), [])
    ensures r.response.status == 400 <==>
              Destructurable(body)
              && (!Truthy(Prop(body, "question")) || !Prop(body, "options").Arr? || !Prop(body, "correct").Num?)
    ensures r.response.status != 200 ==> r.writes == []
    ensures r.response.status == 200 <==> r.writes != []
    ensures r.response.status == 200 <==>
              Destructurable(body)
              && !QuestionRejected(Prop(body, "question"), Prop(body, "options"), Prop(body, "correct"))
              && reply.Assigned?
    ensures (Destructurable(body) && reply.AddFailed?
             && !QuestionRejected(Prop(body, "question"), Prop(body, "options"), Prop(body, "correct")))
            ==> r == Outcome(ServerError, [])
    ensures r.response.status == 200 ==>
              && reply.Assigned?
              && r.response.body == CreatedBody(reply.id)
              && r.writes == [Added(QuestionsCollection, reply.id,
                                    QuestionDoc(Prop(body, "question"), Prop(body, "options"), Prop(body, "correct")))]
  {
    if !Destructurable(body) then Outcome(ServerError, [])
    else
      var question, options, correct := Prop(body, "question"), Prop(body, "options"), Prop(body, "correct");
      if QuestionRejected(question, options, correct) then
        Outcome(Response(400, ErrorBody("Invalid question data")), [])
      else
        match reply
        case AddFailed => Outcome(ServerError, [])
        case Assigned(id) =>
          Outcome(Response(200, CreatedBody(id)), [Added(QuestionsCollection, id, QuestionDoc(question, options, correct))])
  }

  // ---------------------------------------------------------------------
  // PUT /api/questions/:id

  /** The fields written by an update. */
  function QuestionUpdate(question: JsValue, options: JsValue, correct: JsValue): Document
  {
    StampedQuestion(question, options, correct, "updatedAt")
  }

  /** `updated` is the store's answer: false when it refuses the update. */
  function UpdateQuestion(id: string, body: JsValue, updated: bool): (r: Outcome)
    ensures r.response.status != 400
    ensures r.response.status == 200 <==> Destructurable(body) && updated
    ensures !(Destructurable(body) && updated) ==> r == Outcome(ServerError, [])
    ensures r.response.status == 200 ==>
              && r.response.body == Obj(map["success" := Bool(true)])
              && r.writes == [Updated(QuestionsCollection, id,
                                      QuestionUpdate(Prop(body, "question"), Prop(body, "options"), Prop(body, "correct")))]
    ensures r.response.status != 200 ==> r.writes == []
  {
    if !Destructurable(body) then Outcome(ServerError, [])
    else
      var fields := QuestionUpdate(Prop(body, "question"), Prop(body, "options"), Prop(body, "correct"));
      if updated then Outcome(Response(200, Obj(map["success" := Bool(true)])), [Updated(QuestionsCollection, id, fields)])
      else Outcome(ServerError, [])
  }

  // ---------------------------------------------------------------------
  // POST /api/submit

  /** The guard of the result-submission endpoint, as written. */
  predicate SubmissionRejected(answers: JsValue, score: JsValue, totalQuestions: JsValue)
    // An accepted submission carries a numeric score and total.
    ensures !SubmissionRejected(answers, score, totalQuestions) ==> score.Num? && totalQuestions.Num?
    // Any array or object passes as answers, an empty one included.
    ensures answers.Arr? || answers.Obj? ==>
              (SubmissionRejected(answers, score, totalQuestions) <==> !score.Num? || !totalQuestions.Num?)
  {
    !Truthy(answers) || !score.Num? || !totalQuestions.Num?
  }

  /** The record stored for a submitted quiz. */
  function ResultDoc(answers: JsValue, score: JsValue, totalQuestions: JsValue, completedAt: JsValue): (d: Document)
    ensures d.Keys == {"answers", "score", "totalQuestions", "completedAt", "submittedAt"}
    ensures d["answers"] == Value(answers) && d["score"] == Value(score)
    ensures d["totalQuestions"] == Value(totalQuestions) && d["completedAt"] == Value(completedAt)
    ensures d["submittedAt"] == ServerTimestamp
  {
    map["answers" := Value(answers), "score" := Value(score), "totalQuestions" := Value(totalQuestions),
        "completedAt" := Value(completedAt), "submittedAt" := ServerTimestamp]
  }

  function SubmitResult(body: JsValue, reply: AddReply): (r: Outcome)
    ensures !Destructurable(body) ==> r == Outcome(ServerError, [])
    ensures r.response.status == 400 ==> r == Outcome(Response(400, ErrorBody("Invalid submission data")), [])
    ensures r.response.status == 400 <==>
              Destructurable(body)
              && (!Truthy(Prop(body, "answers")) || !Prop(body, "score").Num? || !Prop(body, "totalQuestions").Num?)
    ensures r.response.status != 200 ==> r.writes == []
    ensures r.response.status == 200 <==> r.writes != []
    ensures r.response.status == 200 <==>
              Destructurable(body)
              && !SubmissionRejected(Prop(body, "answers"), Prop(body, "score"), Prop(body, "totalQuestions"))
              && reply.Assigned?
    ensures (Destructurable(body) && reply.AddFailed?
             && !SubmissionRejected(Prop(body, "answers"), Prop(body, "score"), Prop(body, "totalQuestions")))
            ==> r == Outcome(ServerError, [])
    ensures r.response.status == 200 ==>
              && reply.Assigned?
              && r.response.body == CreatedBody(reply.id)
              && r.writes == [Added(ResultsCollection, reply.id,
                                    ResultDoc(Prop(body, "answers"), Prop(body, "score"),
                                              Prop(body, "totalQuestions"), Prop(body, "completedAt")))]
    ensures forall w :: w in r.writes ==> w.Added? && w.doc["score"].Value? && w.doc["score"].v.Num?
  {
    if !Destructurable(body) then Outcome(ServerError, [])
    else
      var answers, score, total, completedAt :=
        Prop(body, "answers"), Prop(body, "score"), Prop(body, "totalQuestions"), Prop(body, "completedAt");
      if SubmissionRejected(answers, score, total) then
        Outcome(Response(400, ErrorBody("Invalid submission data")), [])
      else
        match reply
        case AddFailed => Outcome(ServerError, [])
        case Assigned(id) =>
          Outcome(Response(200, CreatedBody(id)), [Added(ResultsCollection, id, ResultDoc(answers, score, total, completedAt))])
  }

  // ---------------------------------------------------------------------
  // The store and the handlers that write to it

  /** The document store, seen as the log of writes it has accepted. */
  class DocumentStore {
    var log: seq<Write>

    constructor()
      ensures log == []
    {
      log := [];
    }

    /** Adds a document; the store either assigns an id or fails. */
    method Add(collection: string, doc: Document, reply: AddReply) returns (id: Option<string>)
      modifies this
      ensures id == if reply.Assigned? then Some(reply.id) else None
      ensures log == old(log) + if reply.Assigned? then [Added(collection, reply.id, doc)] else []
    {
      match reply
      case AddFailed =>
        id := None;
      case Assigned(newId) =>
        log := log + [Added(collection, newId, doc)];
        id := Some(newId);
    }

    /** Merges fields into a document; the store either accepts or fails. */
    method Update(collection: string, docId: string, fields: Document, accepted: bool) returns (ok: bool)
      modifies this
      ensures ok == accepted
      ensures log == old(log) + if accepted then [Updated(collection, docId, fields)] else []
    {
      if accepted {
        log := log + [Updated(collection, docId, fields)];
      }
      ok := accepted;
    }
  }

  /** The POST /api/questions handler: validate, then add. A rejected request
      leaves the store untouched. */
  method PostQuestion(store: DocumentStore, body: JsValue, reply: AddReply) returns (response: Response)
    modifies store
    ensures response == AddQuestion(body, reply).response
    ensures store.log == old(store.log) + AddQuestion(body, reply).writes
    ensures response.status == 400 ==> store.log == old(store.log)
  {
    if !Destructurable(body) {
      return ServerError;
    }
    var question, options, correct := Prop(body, "question"), Prop(body, "options"), Prop(body, "correct");
    if QuestionRejected(question, options, correct) {
      return Response(400, ErrorBody("Invalid question data"));
    }
    var id := store.Add(QuestionsCollection, QuestionDoc(question, options, correct), reply);
    if id.None? {
      return ServerError;
    }
    response := Response(200, CreatedBody(id.value));
  }

  /** The PUT /api/questions/:id handler: no validation, one update. */
  method PutQuestion(store: DocumentStore, id: string, body: JsValue, accepted: bool) returns (response: Response)
    modifies store
    ensures response == UpdateQuestion(id, body, accepted).response
    ensures store.log == old(store.log) + UpdateQuestion(id, body, accepted).writes
  {
    if !Destructurable(body) {
      return ServerError;
    }
    var question, options, correct := Prop(body, "question"), Prop(body, "options"), Prop(body, "correct");
    var ok := store.Update(QuestionsCollection, id, QuestionUpdate(question, options, correct), accepted);
    if !ok {
      return ServerError;
    }
    response := Response(200, Obj(map["success" := Bool(true)]));
  }

  /** The POST /api/submit handler: validate, then add. A rejected request
      leaves the store untouched. */
  method PostSubmission(store: DocumentStore, body: JsValue, reply: AddReply) returns (response: Response)
    modifies store
    ensures response == SubmitResult(body, reply).response
    ensures store.log == old(store.log) + SubmitResult(body, reply).writes
    ensures response.status == 400 ==> store.log == old(store.log)
  {
    if !Destructurable(body) {
      return ServerError;
    }
    var answers, score, total, completedAt :=
      Prop(body, "answers"), Prop(body, "score"), Prop(body, "totalQuestions"), Prop(body, "completedAt");
    if SubmissionRejected(answers, score, total) {
      return Response(400, ErrorBody("Invalid submission data"));
    }
    var id := store.Add(ResultsCollection, ResultDoc(answers, score, total, completedAt), reply);
    if id.None? {
      return ServerError;
    }
    response := Response(200, CreatedBody(id.value));
  }

  // ---------------------------------------------------------------------
  // GET /api/stats

  /** Stored scores are numbers, or falsy when absent: the only writer of the
      results collection, the submission handler, stores a number. */
  predicate ScoresAreNumeric(scores: seq<JsValue>)
  {
    forall i :: 0 <= i < |scores| ==> Truthy(scores[i]) ==> scores[i].Num?
  }

  /** What one stored document adds to the total: its score, or zero when
      the score is missing or falsy. */
  function ScoreTerm(score: JsValue): (t: real)
    requires Truthy(score) ==> score.Num?
    ensures !Truthy(score) ==> t == 0.0
    ensures score.Num? ==> t == score.n
  {
    if Truthy(score) then score.n else 0.0
  }

  /** The sum of the stored scores, missing ones counting as zero. */
  function TotalScore(scores: seq<JsValue>): (t: real)
    requires ScoresAreNumeric(scores)
    ensures scores == [] ==> t == 0.0
    ensures |scores| == 1 ==> t == ScoreTerm(scores[0])
  {
    if scores == [] then 0.0 else TotalScore(scores[..|scores| - 1]) + ScoreTerm(scores[|scores| - 1])
  }

  /** The guarded mean: zero when there is nothing to average. */
  function Mean(total: real, count: nat): real
  {
    if count > 0 then total / count as real else 0.0
  }

  /** The mean stored score, guarded against an empty collection. */
  function AverageScore(scores: seq<JsValue>): (avg: real)
    requires ScoresAreNumeric(scores)
    ensures scores == [] ==> avg == 0.0
    ensures scores != [] ==> avg * |scores| as real == TotalScore(scores)
  {
    Mean(TotalScore(scores), |scores|)
  }

  datatype Stats = Stats(totalQuestions: nat, totalResults: nat, averageScore: real)

  /** The statistics handler: counts, and the average of the scores summed
      one document at a time. */
  method GetStats(questionCount: nat, scores: seq<JsValue>) returns (stats: Stats)
    requires ScoresAreNumeric(scores)
    ensures stats.totalQuestions == questionCount && stats.totalResults == |scores|
    ensures stats.averageScore == AverageScore(scores)
  {
    var totalScore := 0.0;
    var i := 0;
    while i < |scores|
      invariant 0 <= i <= |scores|
      invariant totalScore == TotalScore(scores[..i])
    {
      assert scores[..i + 1][..i] == scores[..i];
      totalScore := totalScore + ScoreTerm(scores[i]);
      i := i + 1;
    }
    assert scores[..i] == scores;
    stats := Stats(questionCount, |scores|, Mean(totalScore, |scores|));
  }

  // ---------------------------------------------------------------------
  // Properties

  /** The question guard accepts an empty option list and rejects an empty
      prompt, a non-array option value, and a correct index given as a
      string. */
  lemma QuestionGuardCases(options: seq<JsValue>)
    ensures !QuestionRejected(Str("Q"), Arr([]), Num(0.0))
    ensures QuestionRejected(Str(""), Arr(options), Num(1.0))
    ensures QuestionRejected(Undefined, Arr(options), Num(1.0))
    ensures QuestionRejected(Str("Q"), Str("a,b"), Num(1.0))
    ensures QuestionRejected(Str("Q"), Undefined, Num(1.0))
    ensures QuestionRejected(Str("Q"), Arr(options), Str("1"))
  {
  }

  /** A question body with a non-array option value gets a 400 and causes no
      store write. */
  lemma NonArrayOptionsRejected(body: JsValue, reply: AddReply)
    requires body.Obj? && "question" in body.props && body.props["question"] == Str("Q")
    requires "options" in body.props && !body.props["options"].Arr?
    ensures AddQuestion(body, reply).response.status == 400
    ensures AddQuestion(body, reply).writes == []
  {
  }

  /** The submission guard: any truthy answers value passes, but a missing
      answers value or a non-number score or total is rejected. */
  lemma SubmissionGuardCases(answers: JsValue)
    requires Truthy(answers)
    ensures !SubmissionRejected(answers, Num(2.0), Num(3.0))
    ensures !SubmissionRejected(Str("x"), Num(0.0), Num(0.0))
    ensures SubmissionRejected(Undefined, Num(2.0), Num(3.0))
    ensures SubmissionRejected(answers, Str("2"), Num(3.0))
    ensures SubmissionRejected(answers, Num(2.0), Null)
  {
  }

  /** Scores within [0, hi] sum to at most hi per document. */
  lemma {:induction false} TotalScoreBounds(scores: seq<JsValue>, hi: real)
    requires ScoresAreNumeric(scores)
    requires forall i :: 0 <= i < |scores| ==> scores[i].Num? ==> 0.0 <= scores[i].n <= hi
    requires 0.0 <= hi
    ensures 0.0 <= TotalScore(scores) <= hi * |scores| as real
  {
    if scores != [] {
      var front, last := scores[..|scores| - 1], scores[|scores| - 1];
      TotalScoreBounds(front, hi);
      assert TotalScore(scores) == TotalScore(front) + ScoreTerm(last);
      SumStaysBounded(TotalScore(front), ScoreTerm(last), hi, |front|);
    }
  }

  lemma SumStaysBounded(sum: real, term: real, hi: real, n: nat)
    requires 0.0 <= sum <= hi * n as real && 0.0 <= term <= hi
    ensures 0.0 <= sum + term <= hi * (n + 1) as real
  {
  }

  lemma MeanStaysBounded(total: real, n: nat, hi: real)
    requires 0.0 <= hi && 0.0 <= total <= hi * n as real
    ensures 0.0 <= Mean(total, n) <= hi
  {
    if n > 0 {
      assert total / n as real <= (hi * n as real) / n as real;
    }
  }

  /** When every stored score lies in [0, hi], so does the average. */
  lemma AverageScoreBounds(scores: seq<JsValue>, hi: real)
    requires ScoresAreNumeric(scores)
    requires forall i :: 0 <= i < |scores| ==> scores[i].Num? ==> 0.0 <= scores[i].n <= hi
    requires 0.0 <= hi
    ensures 0.0 <= AverageScore(scores) <= hi
  {
    TotalScoreBounds(scores, hi);
    MeanStaysBounded(TotalScore(scores), |scores|, hi);
  }

  /** A document without a score (or with a falsy one) adds nothing to the
      total but still counts as a result. */
  lemma MissingScoreAddsNothing(scores: seq<JsValue>, missing: JsValue)
    requires ScoresAreNumeric(scores) && !Truthy(missing)
    ensures ScoresAreNumeric(scores + [missing])
    ensures TotalScore(scores + [missing]) == TotalScore(scores)
  {
  }
}
