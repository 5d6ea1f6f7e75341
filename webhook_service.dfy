/**
 * The results payload (app/utils/webhookService.ts): the tiered result
 * message, the rounded percentage and the assembled payload.  Delivery
 * itself (`fetch`) is outside the model; `SubmitQuizResults` takes the
 * delivery outcome as a function of the payload.
 */
module WebhookService {
  import opened Wrappers
  import opened QuizData
  import opened QuizContext

  const Excellent := "Excelente! Você é um especialista em anatomia!"
  const VeryGood := "Muito bom! Você tem um conhecimento sólido de anatomia!"
  const Basic := "Bom! Você tem uma compreensão básica de anatomia."
  const KeepStudying := "Continue estudando! A anatomia requer prática constante."

  /** The rank of a result message, from the lowest tier (0) to the top tier (3). */
  function Tier(message: string): nat {
    if message == Excellent then 3
    else if message == VeryGood then 2
    else if message == Basic then 1
    else 0
  }

  /** `getResultMessage`: the first tier whose threshold (90, 70, 50) the percentage reaches. */
  function ResultMessage(percentCorrect: int): (message: string)
    ensures message == Excellent <==> percentCorrect >= 90
    ensures message == VeryGood <==> 70 <= percentCorrect < 90
    ensures message == Basic <==> 50 <= percentCorrect < 70
    ensures message == KeepStudying <==> percentCorrect < 50
  {
    if percentCorrect >= 90 then Excellent
    else if percentCorrect >= 70 then VeryGood
    else if percentCorrect >= 50 then Basic
    else KeepStudying
  }

  /** A higher percentage never earns a lower tier. */
  lemma ResultMessageMonotone(p: int, q: int)
    requires p <= q
    ensures Tier(ResultMessage(p)) <= Tier(ResultMessage(q))
  {
  }

  /**
   * `Math.round((score / totalQuestions) * 100)`.  Math.round(x) is
   * floor(x + 1/2); for x = 100 * score / total that is
   * floor((200 * score + total) / (2 * total)), computed exactly here.
   */
  function PercentCorrect(score: int, totalQuestions: int): (percent: int)
    requires totalQuestions > 0
    ensures 2 * totalQuestions * percent <= 200 * score + totalQuestions < 2 * totalQuestions * (percent + 1)
  {
    (200 * score + totalQuestions) / (2 * totalQuestions)
  }

  /** Cancelling a positive factor from both sides of a strict inequality. */
  lemma CancelPositive(t: int, a: int, b: int)
    requires t > 0 && t * a < t * b
    ensures a < b
  {
  }

  /** The percentage stays within 0..100 for any score between 0 and the total. */
  lemma PercentCorrectInRange(score: int, totalQuestions: int)
    requires totalQuestions > 0 && 0 <= score <= totalQuestions
    ensures 0 <= PercentCorrect(score, totalQuestions) <= 100
  {
    var t, p := totalQuestions, PercentCorrect(score, totalQuestions);
    assert (2 * t) * 0 < (2 * t) * (p + 1);
    CancelPositive(2 * t, 0, p + 1);
    assert 200 * score + t <= 201 * t;
    assert (2 * t) * p < (2 * t) * 101;
    CancelPositive(2 * t, p, 101);
  }

  /** Integer inequalities carry over to their real images. */
  lemma RealImage(t: int, p: int, score: int)
    requires 2 * t * p <= 200 * score + t < 2 * t * (p + 1)
    ensures 2.0 * (t as real) * (p as real) <= 200.0 * (score as real) + t as real
    ensures 200.0 * (score as real) + t as real < 2.0 * (t as real) * (p as real) + 2.0 * (t as real)
  {
    assert (2 * t * p) as real == 2.0 * (t as real) * (p as real);
    assert (2 * t * (p + 1)) as real == 2.0 * (t as real) * (p as real) + 2.0 * (t as real);
  }

  /** For t > 0, a * t <= b <==> a <= b / t, and the same strictly. */
  lemma DivideByPositive(t: real, a: real, b: real)
    requires t > 0.0
    ensures a * t <= b ==> a <= b / t
    ensures b < a * t ==> b / t < a
  {
  }

  /** Division by a positive real distributes over adding a multiple of it. */
  lemma DivideSum(t: real, x: real, y: real)
    requires t > 0.0
    ensures (x + y * t) / t == x / t + y
  {
    var q := x / t;
    assert q * t == x;
    assert x + y * t == (q + y) * t;
  }

  /** The rounding is the true percentage: it is within half a point of 100 * score / total. */
  lemma PercentCorrectIsNearest(score: int, totalQuestions: int)
    requires totalQuestions > 0
    ensures var exact := 100.0 * (score as real) / (totalQuestions as real);
      exact - 0.5 < PercentCorrect(score, totalQuestions) as real <= exact + 0.5
  {
    var p := PercentCorrect(score, totalQuestions);
    var t := totalQuestions as real;
    var pr, sr := p as real, score as real;
    RealImage(totalQuestions, p, score);
    assert pr * t <= 100.0 * sr + 0.5 * t;
    DivideByPositive(t, pr, 100.0 * sr + 0.5 * t);
    DivideSum(t, 100.0 * sr, 0.5);
    assert 100.0 * sr - 0.5 * t < pr * t;
    DivideByPositive(t, pr, 100.0 * sr - 0.5 * t);
    DivideSum(t, 100.0 * sr, -0.5);
  }

  /** Over the ten-question bank the percentage is exactly ten per correct answer. */
  lemma PercentOfTenQuestions(score: int)
    ensures PercentCorrect(score, 10) == 10 * score
  {
  }

  /** `timingData.find(t => t.questionId === index)`: the position of the first matching record. */
  function FindTiming(timing: seq<TimingData>, questionId: int): (found: Option<nat>)
    ensures found.Some? ==>
      && found.value < |timing|
      && timing[found.value].questionId == questionId
      && forall j :: 0 <= j < found.value ==> timing[j].questionId != questionId
    ensures found.None? <==> forall j :: 0 <= j < |timing| ==> timing[j].questionId != questionId
    decreases |timing|
  {
    if timing == [] then None
    else if timing[0].questionId == questionId then Some(0)
    else
      match FindTiming(timing[1..], questionId)
      case None => None
      case Some(k) => Some(k + 1)
  }

  datatype Metadata = Metadata(totalQuestions: nat, version: string, categories: seq<string>)

  datatype QuizSection = QuizSection(
    title: string,
    metadata: Metadata,
    questions: seq<QuizQuestion>,
    professionOptions: seq<string>)

  datatype TimingSummary = TimingSummary(averageResponseTime: real, totalQuizTime: int, numTimeouts: nat)

  datatype QuestionAnalysis = QuestionAnalysis(
    questionId: int,
    userAnswer: int,
    correctAnswer: int,
    isCorrect: bool,
    responseTime: int,
    didExpire: bool)

  datatype QuizResults = QuizResults(
    userAnswers: seq<int>,
    score: int,
    totalQuestions: nat,
    percentCorrect: int,
    timing: TimingSummary,
    questionsAnalysis: seq<QuestionAnalysis>,
    resultMessage: string)

  datatype WebhookInfo = WebhookInfo(timestamp: string, source: string, version: string, eventType: string)

  datatype WebhookPayload = WebhookPayload(
    quiz: QuizSection,
    userInfo: UserInfo,
    quizResults: QuizResults,
    webhook: WebhookInfo)

  const QuizTitle := "Quiz Anatomia Sem Medo"
  const PayloadVersion := "1.0.0"
  const EventType := "quiz_completed"

  /** The user's answer at a position, -1 when the answers stop short of it. */
  function AnswerAt(userAnswers: seq<int>, index: nat): (answer: int)
    ensures index < |userAnswers| ==> answer == userAnswers[index]
    ensures index >= |userAnswers| ==> answer == -1
  {
    if index < |userAnswers| then userAnswers[index] else -1
  }

  /** One entry of `questionsAnalysis`, for the question at position `index`. */
  function Analyze(question: QuizQuestion, index: nat, userAnswers: seq<int>, timing: seq<TimingData>): (a: QuestionAnalysis)
    ensures a.questionId == question.id && a.correctAnswer == question.correctAnswer
    ensures a.userAnswer == AnswerAt(userAnswers, index)
    ensures a.isCorrect <==> a.userAnswer == question.correctAnswer
    ensures FindTiming(timing, index).None? ==> a.responseTime == 0 && !a.didExpire
    ensures FindTiming(timing, index).Some? ==>
      var r := timing[FindTiming(timing, index).value]; a.responseTime == r.responseTime && a.didExpire == r.didExpire
  {
    var userAnswer := AnswerAt(userAnswers, index);
    var timingInfo := match FindTiming(timing, index)
      case Some(k) => timing[k]
      case None => TimingData(index, 0, false);
    QuestionAnalysis(question.id, userAnswer, question.correctAnswer, userAnswer == question.correctAnswer,
                     timingInfo.responseTime, timingInfo.didExpire)
  }

  function QuestionsAnalysis(questions: seq<QuizQuestion>, userAnswers: seq<int>, timing: seq<TimingData>): (r: seq<QuestionAnalysis>)
    ensures |r| == |questions|
    ensures forall i :: 0 <= i < |r| ==> r[i] == Analyze(questions[i], i, userAnswers, timing)
  {
    seq(|questions|, i requires 0 <= i < |questions| => Analyze(questions[i], i, userAnswers, timing))
  }

  /** `prepareWebhookPayload`; `timestamp` is the ISO-8601 reading of the clock. */
  function PrepareWebhookPayload(
    questions: seq<QuizQuestion>,
    professionOptions: seq<string>,
    userInfo: UserInfo,
    userAnswers: seq<int>,
    score: int,
    timingData: seq<TimingData>,
    totalQuizTime: int,
    timestamp: string): (p: WebhookPayload)
    requires |questions| > 0
    ensures p.quiz.questions == questions && p.quiz.professionOptions == professionOptions
    ensures p.quiz.metadata.totalQuestions == |questions| && p.quiz.metadata.version == PayloadVersion
    ensures p.userInfo == userInfo
    ensures p.quizResults.userAnswers == userAnswers && p.quizResults.score == score
    ensures p.quizResults.totalQuestions == |questions|
    ensures p.quizResults.percentCorrect == PercentCorrect(score, |questions|)
    ensures p.quizResults.resultMessage == ResultMessage(p.quizResults.percentCorrect)
    ensures p.quizResults.timing.numTimeouts == NumTimeouts(timingData)
    ensures p.quizResults.timing.averageResponseTime == AverageResponseTime(timingData)
    ensures p.quizResults.timing.totalQuizTime == totalQuizTime
    ensures p.quizResults.questionsAnalysis == QuestionsAnalysis(questions, userAnswers, timingData)
    ensures p.webhook == WebhookInfo(timestamp, QuizTitle, PayloadVersion, EventType)
  {
    var totalQuestions := |questions|;
    var percentCorrect := PercentCorrect(score, totalQuestions);
    WebhookPayload(
      QuizSection(QuizTitle, Metadata(totalQuestions, PayloadVersion, ["Anatomia", "Saúde", "Educação Médica"]),
                  questions, professionOptions),
      userInfo,
      QuizResults(userAnswers, score, totalQuestions, percentCorrect,
                  TimingSummary(AverageResponseTime(timingData), totalQuizTime, NumTimeouts(timingData)),
                  QuestionsAnalysis(questions, userAnswers, timingData),
                  ResultMessage(percentCorrect)),
      WebhookInfo(timestamp, QuizTitle, PayloadVersion, EventType))
  }

  /** The number of analysis entries marked correct. */
  function CountCorrect(analysis: seq<QuestionAnalysis>): (n: nat)
    ensures n <= |analysis|
    decreases |analysis|
  {
    if analysis == [] then 0
    else CountCorrect(analysis[..|analysis| - 1]) + (if analysis[|analysis| - 1].isCorrect then 1 else 0)
  }

  /**
   * The analysis agrees with the session's score: with one answer per
   * question, the entries marked correct are exactly as many as `score`.
   */
  lemma {:induction false} AnalysisAgreesWithScore(questions: seq<QuizQuestion>, userAnswers: seq<int>, timing: seq<TimingData>)
    requires |userAnswers| == |questions|
    ensures CountCorrect(QuestionsAnalysis(questions, userAnswers, timing)) == Score(userAnswers, questions)
    decreases |questions|
  {
    if questions != [] {
      var k := |questions| - 1;
      var a := QuestionsAnalysis(questions, userAnswers, timing);
      var a' := QuestionsAnalysis(questions[..k], userAnswers[..k], timing);
      AnalysisAgreesWithScore(questions[..k], userAnswers[..k], timing);
      assert a[..k] == a' by {
        forall i | 0 <= i < k ensures a[..k][i] == a'[i] {
          assert a'[i] == Analyze(questions[..k][i], i, userAnswers[..k], timing);
        }
      }
      ScoreIgnoresLongerBank(userAnswers[..k], questions[..k], questions);
      assert userAnswers[..|userAnswers| - 1] == userAnswers[..k];
    }
  }

  /** The score only looks at the questions the answers reach. */
  lemma {:induction false} ScoreIgnoresLongerBank(answers: seq<int>, bank: seq<QuizQuestion>, longer: seq<QuizQuestion>)
    requires |answers| <= |bank| <= |longer| && bank == longer[..|bank|]
    ensures Score(answers, bank) == Score(answers, longer)
    decreases |answers|
  {
    if answers != [] {
      ScoreIgnoresLongerBank(answers[..|answers| - 1], bank, longer);
    }
  }

  /**
   * `submitQuizResults`: one delivery attempt of the assembled payload to
   * `webhookUrl`; `deliver` is the outcome of the POST (false also for a
   * thrown error).
   */
  function SubmitQuizResults(
    questions: seq<QuizQuestion>,
    professionOptions: seq<string>,
    userInfo: UserInfo,
    userAnswers: seq<int>,
    score: int,
    timingData: seq<TimingData>,
    totalQuizTime: int,
    webhookUrl: string,
    timestamp: string,
    deliver: (string, WebhookPayload) -> bool): (delivered: bool)
    requires |questions| > 0
    ensures delivered == deliver(webhookUrl, PrepareWebhookPayload(questions, professionOptions, userInfo, userAnswers,
                                                                   score, timingData, totalQuizTime, timestamp))
  {
    var payload := PrepareWebhookPayload(questions, professionOptions, userInfo, userAnswers,
                                         score, timingData, totalQuizTime, timestamp);
    deliver(webhookUrl, payload)
  }
}
