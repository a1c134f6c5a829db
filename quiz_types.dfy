// Shared data model of the quiz front end: questions, per-question results,
// the session state record, and the conversion of a question identifier to
// the string key under which its answer is stored.

module QuizTypes {

  datatype Option<+T> = None | Some(value: T)

  /** A question identifier is either a number or a string. Numbers are
      modelled as integers. */
  datatype QuestionId = NumId(n: int) | StrId(s: string)

  datatype Question = Question(id: QuestionId, question: string, options: seq<string>, correctAnswer: string)

  /** One entry of the result list shown after a quiz. */
  datatype QuizResult = QuizResult(question: string, userAnswer: string, correctAnswer: string, isCorrect: bool)

  /** The session record held by the quiz service. The index is never
      negative: it starts at 0 and is only ever reset to 0 or incremented. */
  datatype QuizState = QuizState(currentQuestionIndex: nat, questions: seq<Question>, userAnswers: map<string, string>)

  datatype ScoreSummary = ScoreSummary(score: nat, total: nat)

  /** The text shown for a question without a stored answer. */
  const NotAnswered: string := "Not answered"

  function DigitChar(d: nat): (c: char)
    requires d < 10
    ensures '0' <= c <= '9' && c as int - '0' as int == d
  {
    ('0' as int + d) as char
  }

  /** Decimal text of a natural number without leading zeros, as JavaScript's
      String(n) gives it for integers below 10^21 (from there on JavaScript
      switches to exponent notation). */
  function NatToDecimal(n: nat): (s: string)
    ensures |s| >= 1
    ensures forall i :: 0 <= i < |s| ==> '0' <= s[i] <= '9'
    ensures |s| == 1 <==> n < 10
    ensures s[0] == '0' ==> n == 0
    decreases n
  {
    if n < 10 then [DigitChar(n)] else NatToDecimal(n / 10) + [DigitChar(n % 10)]
  }

  /** An optional minus sign followed by the digits of the magnitude. */
  function IntToDecimal(n: int): (s: string)
    ensures |s| >= 1
    ensures s[0] == '-' <==> n < 0
    ensures forall i :: (if n < 0 then 1 else 0) <= i < |s| ==> '0' <= s[i] <= '9'
    ensures n < 0 ==> |s| >= 2 && s[1] != '0'
    ensures s[0] == '0' ==> s == "0"
  {
    if n < 0 then "-" + NatToDecimal(-n) else NatToDecimal(n)
  }

  /** String(question.id): the key under which an answer is stored. A string
      id is its own key; a numeric id becomes a decimal numeral. */
  function IdKey(id: QuestionId): (k: string)
    ensures id.StrId? ==> k == id.s
    ensures id.NumId? ==> |k| >= 1 && (k[0] == '-' <==> id.n < 0)
    ensures id.NumId? ==> forall i :: (if id.n < 0 then 1 else 0) <= i < |k| ==> '0' <= k[i] <= '9'
  {
    match id
    case NumId(n) => IntToDecimal(n)
    case StrId(s) => s
  }

  /** A numeral in canonical form: one or more decimal digits, with no
      leading zero unless the numeral is "0" itself. */
  predicate Canonical(s: string)
  {
    && |s| >= 1
    && (forall i :: 0 <= i < |s| ==> '0' <= s[i] <= '9')
    && (s[0] == '0' ==> |s| == 1)
  }

  /** The number a string of decimal digits denotes. */
  function DecimalValue(s: string): nat
    requires forall i :: 0 <= i < |s| ==> '0' <= s[i] <= '9'
  {
    if s == [] then 0 else DecimalValue(s[..|s| - 1]) * 10 + (s[|s| - 1] as int - '0' as int)
  }

  /** The text of a natural number denotes that number. */
  lemma {:induction false} NatToDecimalRoundTrip(n: nat)
    ensures DecimalValue(NatToDecimal(n)) == n
    decreases n
  {
    var s := NatToDecimal(n);
    if n >= 10 {
      NatToDecimalRoundTrip(n / 10);
      assert s[..|s| - 1] == NatToDecimal(n / 10);
    }
  }

  lemma {:induction false} LeadingDigitPositive(s: string)
    requires Canonical(s) && s[0] != '0'
    ensures DecimalValue(s) >= 1
    decreases |s|
  {
    if |s| > 1 {
      LeadingDigitPositive(s[..|s| - 1]);
    }
  }

  /** Every canonical numeral is the text of the number it denotes. */
  lemma {:induction false} CanonicalRoundTrip(s: string)
    requires Canonical(s)
    ensures NatToDecimal(DecimalValue(s)) == s
    decreases |s|
  {
    if |s| > 1 {
      var front := s[..|s| - 1];
      assert Canonical(front);
      LeadingDigitPositive(front);
      CanonicalRoundTrip(front);
      var v := DecimalValue(s);
      assert v / 10 == DecimalValue(front) && v % 10 == s[|s| - 1] as int - '0' as int;
      assert NatToDecimal(v) == NatToDecimal(v / 10) + [DigitChar(v % 10)];
    }
  }

  /** A non-negative numeric id shares its answer slot with a string id
      exactly when the string is the canonical numeral of that number: "7"
      does, while "07", "7.0" and " 7" do not. */
  lemma NumericAndStringIdsShareSlot(n: nat, s: string)
    ensures IdKey(NumId(n)) == IdKey(StrId(s)) <==> Canonical(s) && DecimalValue(s) == n
  {
    if IdKey(NumId(n)) == IdKey(StrId(s)) {
      NatToDecimalRoundTrip(n);
    }
    if Canonical(s) && DecimalValue(s) == n {
      CanonicalRoundTrip(s);
    }
  }

  lemma {:induction false} NatToDecimalInjective(m: nat, n: nat)
    requires NatToDecimal(m) == NatToDecimal(n)
    ensures m == n
    decreases m
  {
    var s := NatToDecimal(m);
    if m < 10 {
      assert n < 10;
      assert s == [DigitChar(m)] == [DigitChar(n)];
    } else {
      assert n >= 10;
      assert s == NatToDecimal(m / 10) + [DigitChar(m % 10)];
      assert s == NatToDecimal(n / 10) + [DigitChar(n % 10)];
      assert NatToDecimal(m / 10) == s[..|s| - 1] == NatToDecimal(n / 10);
      assert DigitChar(m % 10) == s[|s| - 1] == DigitChar(n % 10);
      NatToDecimalInjective(m / 10, n / 10);
    }
  }

  /** Two numeric identifiers share an answer slot only when they are equal. */
  lemma {:induction false} NumericKeysInjective(m: int, n: int)
    ensures IdKey(NumId(m)) == IdKey(NumId(n)) ==> m == n
  {
    if IdKey(NumId(m)) == IdKey(NumId(n)) {
      var s := IdKey(NumId(m));
      if m < 0 && n < 0 {
        assert NatToDecimal(-m) == s[1..] == NatToDecimal(-n);
        NatToDecimalInjective(-m, -n);
      } else if m >= 0 && n >= 0 {
        NatToDecimalInjective(m, n);
      }
    }
  }

  /** The numeric identifier 1 and the string identifier "1" share one
      answer slot. */
  lemma NumericAndStringIdsCollide()
    ensures IdKey(NumId(1)) == IdKey(StrId("1"))
    ensures IdKey(NumId(-12)) == IdKey(StrId("-12"))
  {
  }

  /** The number of result entries marked correct. */
  function CountCorrect(rs: seq<QuizResult>): (c: nat)
    ensures c <= |rs|
    ensures c == 0 <== forall i :: 0 <= i < |rs| ==> !rs[i].isCorrect
  {
    if rs == [] then 0
    else CountCorrect(rs[..|rs| - 1]) + (if rs[|rs| - 1].isCorrect then 1 else 0)
  }

  /** The positions of the correct entries of a result list. */
  function CorrectPositions(rs: seq<QuizResult>): set<nat>
  {
    set i: nat | i < |rs| && rs[i].isCorrect
  }

  /** Counting the correct entries agrees with the number of positions at
      which an entry is correct. */
  lemma {:induction false} CountCorrectIsCardinality(rs: seq<QuizResult>)
    ensures CountCorrect(rs) == |CorrectPositions(rs)|
  {
    if rs != [] {
      var n := |rs| - 1;
      var front := rs[..n];
      CountCorrectIsCardinality(front);
      if rs[n].isCorrect {
        assert CorrectPositions(rs) == CorrectPositions(front) + {n};
        assert n !in CorrectPositions(front);
      } else {
        assert CorrectPositions(rs) == CorrectPositions(front);
      }
    } else {
      assert CorrectPositions(rs) == {};
    }
  }
}
