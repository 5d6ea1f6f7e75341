/**
 * The quiz session (app/context/QuizContext.tsx): the current step, the
 * question index, the answers (one slot per question, -1 while unanswered),
 * the timing records, the contact record and the per-question countdown.
 *
 * React state setters become assignments to the fields of one Session
 * object.  Each effect of the provider (the one-second tick, the timer
 * re-initialisation on a step or question change, the quiz clock) is an
 * explicit method that the caller runs when React would run the effect;
 * clock readings are parameters.
 */
module QuizContext {
  import opened Wrappers
  import opened QuizData

  datatype QuizStep = Welcome | Question | UserForm | Results

  /** One timing record; `questionId` is the position of the question, not its id. */
  datatype TimingData = TimingData(questionId: int, responseTime: int, didExpire: bool)

  /** The countdown length of a question that sets no limit of its own. */
  const DefaultTimeLimit: int := 30

  /** `Array(n).fill(-1)`: n unanswered slots. */
  function Unanswered(n: nat): (s: seq<int>)
    ensures |s| == n && forall i :: 0 <= i < n ==> s[i] == -1
  {
    seq(n, _ => -1)
  }

  /** Whether slot i holds the correct option of question i; a slot past the bank never does. */
  predicate CorrectAt(answers: seq<int>, bank: seq<QuizQuestion>, i: nat)
    requires i < |answers|
  {
    i < |bank| && answers[i] == bank[i].correctAnswer
  }

  /**
   * `score`: the reduce over the answers, left to right, adding one for
   * each slot equal to its question's correct option.
   */
  function Score(answers: seq<int>, bank: seq<QuizQuestion>): (n: nat)
    ensures n <= |answers| && n <= |bank|
    decreases |answers|
  {
    if answers == [] then 0
    else
      var k := |answers| - 1;
      Score(answers[..k], bank) + (if CorrectAt(answers, bank, k) then 1 else 0)
  }

  /** The positions that score, as a set: the reference meaning of `score`. */
  function CorrectPositions(answers: seq<int>, bank: seq<QuizQuestion>): set<nat> {
    set i: nat | i < |answers| && CorrectAt(answers, bank, i)
  }

  /** The score is the number of positions holding their question's correct option. */
  lemma {:induction false} ScoreCountsCorrectPositions(answers: seq<int>, bank: seq<QuizQuestion>)
    ensures Score(answers, bank) == |CorrectPositions(answers, bank)|
    decreases |answers|
  {
    if answers != [] {
      var k := |answers| - 1;
      var prefix := answers[..k];
      ScoreCountsCorrectPositions(prefix, bank);
      var before := CorrectPositions(prefix, bank);
      assert forall i: nat | i < k :: CorrectAt(prefix, bank, i) == CorrectAt(answers, bank, i);
      if CorrectAt(answers, bank, k) {
        assert CorrectPositions(answers, bank) == before + {k};
      } else {
        assert CorrectPositions(answers, bank) == before;
      }
    }
  }

  /** An unanswered slot never scores when every correct option is a real index. */
  lemma UnansweredNeverCorrect(answers: seq<int>, bank: seq<QuizQuestion>, i: nat)
    requires i < |answers| && answers[i] == -1
    requires forall j :: 0 <= j < |bank| ==> bank[j].correctAnswer >= 0
    ensures !CorrectAt(answers, bank, i)
  {
  }

  /** With no slot scoring, the score is 0: the fresh answers, or all answers wrong. */
  lemma ScoreZeroWhenNoneCorrect(answers: seq<int>, bank: seq<QuizQuestion>)
    requires forall i :: 0 <= i < |answers| ==> !CorrectAt(answers, bank, i)
    ensures Score(answers, bank) == 0
  {
    ScoreCountsCorrectPositions(answers, bank);
    assert CorrectPositions(answers, bank) == {};
  }

  /** With every slot scoring, the score is the number of answers. */
  lemma {:induction false} ScoreFullWhenAllCorrect(answers: seq<int>, bank: seq<QuizQuestion>)
    requires |answers| <= |bank|
    requires forall i :: 0 <= i < |answers| ==> answers[i] == bank[i].correctAnswer
    ensures Score(answers, bank) == |answers|
    decreases |answers|
  {
    if answers != [] {
      var k := |answers| - 1;
      assert forall i :: 0 <= i < k ==> answers[..k][i] == answers[i];
      ScoreFullWhenAllCorrect(answers[..k], bank);
    }
  }

  /** Writing one slot moves the score by that slot's change of correctness alone. */
  lemma ScoreAfterWrite(answers: seq<int>, bank: seq<QuizQuestion>, i: nat, x: int)
    requires i < |answers|
    ensures Score(answers[i := x], bank) + (if CorrectAt(answers, bank, i) then 1 else 0)
         == Score(answers, bank) + (if CorrectAt(answers[i := x], bank, i) then 1 else 0)
  {
    var after := answers[i := x];
    ScoreCountsCorrectPositions(answers, bank);
    ScoreCountsCorrectPositions(after, bank);
    var scoredBefore := CorrectPositions(answers, bank);
    var scoredAfter := CorrectPositions(after, bank);
    var common := scoredBefore - {i};
    assert scoredAfter - {i} == common by {
      forall j: nat | j != i ensures j in scoredAfter <==> j in scoredBefore {
        assert j < |answers| ==> CorrectAt(after, bank, j) == CorrectAt(answers, bank, j);
      }
    }
    SizeAround(scoredBefore, common, i);
    SizeAround(scoredAfter, common, i);
  }

  /** Removing one possible element from a set changes its size by exactly its membership. */
  lemma SizeAround(whole: set<nat>, rest: set<nat>, i: nat)
    requires rest == whole - {i}
    ensures |whole| == |rest| + (if i in whole then 1 else 0)
  {
    if i in whole {
      assert whole == rest + {i};
    } else {
      assert whole == rest;
    }
  }

  /** `numTimeouts`: the number of records whose countdown expired. */
  function NumTimeouts(timing: seq<TimingData>): (n: nat)
    ensures n <= |timing|
    ensures n == 0 <==> forall k :: 0 <= k < |timing| ==> !timing[k].didExpire
    ensures n == |timing| <==> forall k :: 0 <= k < |timing| ==> timing[k].didExpire
    decreases |timing|
  {
    if timing == [] then 0
    else
      var k := |timing| - 1;
      assert forall j :: 0 <= j < k ==> timing[..k][j] == timing[j];
      NumTimeouts(timing[..k]) + (if timing[k].didExpire then 1 else 0)
  }

  /** The positions of the expired records: the reference meaning of `numTimeouts`. */
  function ExpiredPositions(timing: seq<TimingData>): set<nat> {
    set k: nat | k < |timing| && timing[k].didExpire
  }

  /** `numTimeouts` is the number of expired records. */
  lemma {:induction false} NumTimeoutsCountsExpired(timing: seq<TimingData>)
    ensures NumTimeouts(timing) == |ExpiredPositions(timing)|
    decreases |timing|
  {
    if timing != [] {
      var k := |timing| - 1;
      var prefix := timing[..k];
      NumTimeoutsCountsExpired(prefix);
      var before := ExpiredPositions(prefix);
      assert forall j: nat | j < k :: prefix[j] == timing[j];
      if timing[k].didExpire {
        assert ExpiredPositions(timing) == before + {k};
      } else {
        assert ExpiredPositions(timing) == before;
      }
    }
  }

  /** Appending a record adds one timeout exactly when that record expired. */
  lemma NumTimeoutsAppend(timing: seq<TimingData>, r: TimingData)
    ensures NumTimeouts(timing + [r]) == NumTimeouts(timing) + (if r.didExpire then 1 else 0)
  {
    assert (timing + [r])[..|timing|] == timing;
  }

  /** The sum of the response times, `timingData.reduce((sum, item) => sum + item.responseTime, 0)`. */
  function TotalResponseTime(timing: seq<TimingData>): (total: int)
    ensures (forall k :: 0 <= k < |timing| ==> timing[k].responseTime >= 0) ==> total >= 0
    ensures timing == [] ==> total == 0
    decreases |timing|
  {
    if timing == [] then 0
    else TotalResponseTime(timing[..|timing| - 1]) + timing[|timing| - 1].responseTime
  }

  /** A new record adds exactly its own response time to the sum. */
  lemma TotalResponseTimeAppend(timing: seq<TimingData>, r: TimingData)
    ensures TotalResponseTime(timing + [r]) == TotalResponseTime(timing) + r.responseTime
  {
    assert (timing + [r])[..|timing|] == timing;
  }

  /** `averageResponseTime`: the mean response time, 0 when there are no records. */
  function AverageResponseTime(timing: seq<TimingData>): (avg: real)
    ensures |timing| == 0 ==> avg == 0.0
    ensures |timing| > 0 ==> avg * (|timing| as real) == TotalResponseTime(timing) as real
  {
    if |timing| > 0 then (TotalResponseTime(timing) as real) / (|timing| as real) else 0.0
  }

  /** `questionConfig?.timeLimit || 30`: a missing question, a missing limit and a zero limit all give 30. */
  function TimeLimitFor(bank: seq<QuizQuestion>, index: int): (limit: int)
    ensures limit == DefaultTimeLimit <==>
      !(0 <= index < |bank| && bank[index].timeLimit.Some? && bank[index].timeLimit.value != 0)
      || bank[index].timeLimit.value == DefaultTimeLimit
    ensures limit != DefaultTimeLimit ==> limit == bank[index].timeLimit.value
  {
    if 0 <= index < |bank| && bank[index].timeLimit.Some? && bank[index].timeLimit.value != 0
    then bank[index].timeLimit.value
    else DefaultTimeLimit
  }

  /** Every question of the bank gets the default countdown. */
  lemma BankTimeLimitIsDefault(bank: seq<QuizQuestion>, index: int)
    requires BankShape(bank)
    ensures TimeLimitFor(bank, index) == DefaultTimeLimit
  {
  }

  /** The mutable fields of a Session, as one value, so that a frame can be stated in one equation. */
  datatype SessionState = SessionState(
    currentStep: QuizStep,
    currentQuestionIndex: int,
    userAnswers: seq<int>,
    userInfo: Option<UserInfo>,
    timingData: seq<TimingData>,
    questionTimeLeft: int,
    questionTotalTime: int,
    isQuestionTimerActive: bool,
    quizStartTime: Option<int>,
    totalQuizTime: int)

  class Session {
    /** `quizQuestions`, the bank the session scores against. */
    const questions: seq<QuizQuestion>
    /** The question and feedback texts of the bank, position by position. */
    const wordings: seq<Wording>
    var currentStep: QuizStep
    var currentQuestionIndex: int
    var userAnswers: seq<int>
    var userInfo: Option<UserInfo>
    var timingData: seq<TimingData>
    var questionTimeLeft: int
    var questionTotalTime: int
    var isQuestionTimerActive: bool
    var quizStartTime: Option<int>
    var totalQuizTime: int

    /**
     * The session invariant: one answer slot per question, the index on a
     * question, the countdown between 0 and its total, and every timing
     * record tagged with a question position.
     */
    ghost predicate Valid()
      reads this
    {
      && BankShape(questions)
      && WordingsShape(wordings)
      && |userAnswers| == BankSize
      && 0 <= currentQuestionIndex < BankSize
      && 0 <= questionTimeLeft <= questionTotalTime
      && forall k :: 0 <= k < |timingData| ==> 0 <= timingData[k].questionId < BankSize
    }

    /** Every mutable field of the session. */
    function State(): SessionState
      reads this
    {
      SessionState(currentStep, currentQuestionIndex, userAnswers, userInfo, timingData,
        questionTimeLeft, questionTotalTime, isQuestionTimerActive, quizStartTime, totalQuizTime)
    }

    /** The provider's initial state. */
    constructor ()
      ensures Valid() && questions == QuizQuestions() && wordings == BankWordings()
      ensures currentStep == Welcome && currentQuestionIndex == 0
      ensures userAnswers == Unanswered(BankSize) && userInfo == None && timingData == []
      ensures questionTimeLeft == DefaultTimeLimit && questionTotalTime == DefaultTimeLimit
      ensures !isQuestionTimerActive
      ensures quizStartTime == None && totalQuizTime == 0
    {
      questions := QuizQuestions();
      QuizQuestionsShape();
      wordings := BankWordings();
      currentStep := Welcome;
      currentQuestionIndex := 0;
      userAnswers := Unanswered(BankSize);
      userInfo := None;
      timingData := [];
      questionTimeLeft := DefaultTimeLimit;
      questionTotalTime := DefaultTimeLimit;
      isQuestionTimerActive := false;
      quizStartTime := None;
      totalQuizTime := 0;
    }

    /** `score` of the current answers against the bank. */
    function CurrentScore(): (n: nat)
      reads this
      requires Valid()
      ensures n <= BankSize
    {
      Score(userAnswers, questions)
    }

    function CurrentNumTimeouts(): (n: nat)
      reads this
      ensures n <= |timingData|
    {
      NumTimeouts(timingData)
    }

    function CurrentAverageResponseTime(): (avg: real)
      reads this
      ensures timingData == [] ==> avg == 0.0
    {
      AverageResponseTime(timingData)
    }

    /** `setCurrentStep`, called directly by the welcome screen. */
    method SetCurrentStep(step: QuizStep)
      requires Valid()
      modifies this
      ensures Valid()
      ensures currentStep == step
      ensures currentQuestionIndex == old(currentQuestionIndex) && userAnswers == old(userAnswers)
      ensures userInfo == old(userInfo) && timingData == old(timingData)
      ensures questionTimeLeft == old(questionTimeLeft) && questionTotalTime == old(questionTotalTime)
      ensures isQuestionTimerActive == old(isQuestionTimerActive)
      ensures quizStartTime == old(quizStartTime) && totalQuizTime == old(totalQuizTime)
    {
      currentStep := step;
    }

    /** `answerQuestion`: a copy of the answers with one slot rewritten. */
    method AnswerQuestion(questionIndex: int, answerIndex: int)
      requires Valid()
      requires 0 <= questionIndex < |userAnswers|
      modifies this
      ensures Valid()
      ensures |userAnswers| == |old(userAnswers)|
      ensures userAnswers[questionIndex] == answerIndex
      ensures forall i :: 0 <= i < |userAnswers| && i != questionIndex ==> userAnswers[i] == old(userAnswers[i])
      ensures currentStep == old(currentStep) && currentQuestionIndex == old(currentQuestionIndex)
      ensures userInfo == old(userInfo) && timingData == old(timingData)
      ensures questionTimeLeft == old(questionTimeLeft) && questionTotalTime == old(questionTotalTime)
      ensures isQuestionTimerActive == old(isQuestionTimerActive)
      ensures quizStartTime == old(quizStartTime) && totalQuizTime == old(totalQuizTime)
    {
      var newUserAnswers := userAnswers;
      newUserAnswers := newUserAnswers[questionIndex := answerIndex];
      userAnswers := newUserAnswers;
    }

    /** `goToNextQuestion`: the next question, or the lead form after the last one. */
    method GoToNextQuestion()
      requires Valid()
      modifies this
      ensures Valid()
      ensures old(currentQuestionIndex) < BankSize - 1 ==>
        currentQuestionIndex == old(currentQuestionIndex) + 1 && currentStep == old(currentStep)
      ensures old(currentQuestionIndex) >= BankSize - 1 ==>
        currentQuestionIndex == old(currentQuestionIndex) && currentStep == UserForm
      ensures userAnswers == old(userAnswers) && userInfo == old(userInfo) && timingData == old(timingData)
      ensures questionTimeLeft == old(questionTimeLeft) && questionTotalTime == old(questionTotalTime)
      ensures isQuestionTimerActive == old(isQuestionTimerActive)
      ensures quizStartTime == old(quizStartTime) && totalQuizTime == old(totalQuizTime)
    {
      if currentQuestionIndex < |questions| - 1 {
        currentQuestionIndex := currentQuestionIndex + 1;
      } else {
        currentStep := UserForm;
      }
    }

    method PauseTimer()
      requires Valid()
      modifies this
      ensures Valid()
      ensures !isQuestionTimerActive
      ensures currentStep == old(currentStep) && currentQuestionIndex == old(currentQuestionIndex)
      ensures userAnswers == old(userAnswers) && userInfo == old(userInfo) && timingData == old(timingData)
      ensures questionTimeLeft == old(questionTimeLeft) && questionTotalTime == old(questionTotalTime)
      ensures quizStartTime == old(quizStartTime) && totalQuizTime == old(totalQuizTime)
    {
      isQuestionTimerActive := false;
    }

    method ResumeTimer()
      requires Valid()
      modifies this
      ensures Valid()
      ensures isQuestionTimerActive
      ensures currentStep == old(currentStep) && currentQuestionIndex == old(currentQuestionIndex)
      ensures userAnswers == old(userAnswers) && userInfo == old(userInfo) && timingData == old(timingData)
      ensures questionTimeLeft == old(questionTimeLeft) && questionTotalTime == old(questionTotalTime)
      ensures quizStartTime == old(quizStartTime) && totalQuizTime == old(totalQuizTime)
    {
      isQuestionTimerActive := true;
    }

    /**
     * One firing of the one-second interval.  The interval exists only
     * while the timer is active with time left, and it sets
     * `Math.max(0, prev - 1)`.
     */
    method Tick()
      requires Valid()
      modifies this
      ensures Valid()
      ensures old(isQuestionTimerActive) && old(questionTimeLeft) > 0 ==>
        questionTimeLeft == old(questionTimeLeft) - 1
      ensures !(old(isQuestionTimerActive) && old(questionTimeLeft) > 0) ==>
        questionTimeLeft == old(questionTimeLeft)
      ensures questionTimeLeft >= 0
      ensures currentStep == old(currentStep) && currentQuestionIndex == old(currentQuestionIndex)
      ensures userAnswers == old(userAnswers) && userInfo == old(userInfo) && timingData == old(timingData)
      ensures questionTotalTime == old(questionTotalTime) && isQuestionTimerActive == old(isQuestionTimerActive)
      ensures quizStartTime == old(quizStartTime) && totalQuizTime == old(totalQuizTime)
    {
      if isQuestionTimerActive && questionTimeLeft > 0 {
        questionTimeLeft := if questionTimeLeft - 1 > 0 then questionTimeLeft - 1 else 0;
      }
    }

    /**
     * The effect on `[currentStep, currentQuestionIndex]`: on the question
     * step the countdown restarts at the question's limit and runs; on any
     * other step it stops.
     */
    method QuestionTimerEffect()
      requires Valid()
      modifies this
      ensures Valid()
      ensures old(currentStep) == Question ==>
        && questionTimeLeft == TimeLimitFor(questions, currentQuestionIndex)
        && questionTotalTime == TimeLimitFor(questions, currentQuestionIndex)
        && questionTimeLeft == DefaultTimeLimit
        && isQuestionTimerActive
      ensures old(currentStep) != Question ==>
        && !isQuestionTimerActive
        && questionTimeLeft == old(questionTimeLeft) && questionTotalTime == old(questionTotalTime)
      ensures currentStep == old(currentStep) && currentQuestionIndex == old(currentQuestionIndex)
      ensures userAnswers == old(userAnswers) && userInfo == old(userInfo) && timingData == old(timingData)
      ensures quizStartTime == old(quizStartTime) && totalQuizTime == old(totalQuizTime)
    {
      if currentStep == Question {
        var timeLimit := TimeLimitFor(questions, currentQuestionIndex);
        BankTimeLimitIsDefault(questions, currentQuestionIndex);
        questionTimeLeft := timeLimit;
        questionTotalTime := timeLimit;
        isQuestionTimerActive := true;
      } else {
        isQuestionTimerActive := false;
      }
    }

    /**
     * The effect on `[currentStep, currentQuestionIndex, quizStartTime]`:
     * the welcome step clears the quiz clock, the first question starts it
     * and the results step stores the elapsed time, when a (non-zero) start
     * is known.  `now` is the clock reading.
     */
    method QuizClockEffect(now: int)
      requires Valid()
      modifies this
      ensures Valid()
      ensures old(currentStep) == Welcome ==> quizStartTime == None && totalQuizTime == 0
      ensures old(currentStep) == Question && old(currentQuestionIndex) == 0 ==>
        quizStartTime == Some(now) && totalQuizTime == old(totalQuizTime)
      ensures old(currentStep) == Results && old(quizStartTime).Some? && old(quizStartTime).value != 0 ==>
        quizStartTime == old(quizStartTime) && totalQuizTime == now - old(quizStartTime).value
      ensures (|| old(currentStep) == UserForm
               || (old(currentStep) == Question && old(currentQuestionIndex) != 0)
               || (old(currentStep) == Results && !(old(quizStartTime).Some? && old(quizStartTime).value != 0))) ==>
        quizStartTime == old(quizStartTime) && totalQuizTime == old(totalQuizTime)
      ensures currentStep == old(currentStep) && currentQuestionIndex == old(currentQuestionIndex)
      ensures userAnswers == old(userAnswers) && userInfo == old(userInfo) && timingData == old(timingData)
      ensures questionTimeLeft == old(questionTimeLeft) && questionTotalTime == old(questionTotalTime)
      ensures isQuestionTimerActive == old(isQuestionTimerActive)
    {
      if currentStep == Welcome {
        quizStartTime := None;
        totalQuizTime := 0;
      } else if currentStep == Question && currentQuestionIndex == 0 {
        quizStartTime := Some(now);
      } else if currentStep == Results && quizStartTime.Some? && quizStartTime.value != 0 {
        totalQuizTime := now - quizStartTime.value;
      }
    }

    /** `recordTimingData`: one record for the current question, appended. */
    method RecordTimingData(responseTime: int, didExpire: bool)
      requires Valid()
      modifies this
      ensures Valid()
      ensures timingData == old(timingData) + [TimingData(currentQuestionIndex, responseTime, didExpire)]
      ensures currentStep == old(currentStep) && currentQuestionIndex == old(currentQuestionIndex)
      ensures userAnswers == old(userAnswers) && userInfo == old(userInfo)
      ensures questionTimeLeft == old(questionTimeLeft) && questionTotalTime == old(questionTotalTime)
      ensures isQuestionTimerActive == old(isQuestionTimerActive)
      ensures quizStartTime == old(quizStartTime) && totalQuizTime == old(totalQuizTime)
    {
      timingData := timingData + [TimingData(currentQuestionIndex, responseTime, didExpire)];
    }

    /** `setUserData`: store the contact record and show the results. */
    method SetUserData(data: UserInfo)
      requires Valid()
      modifies this
      ensures Valid()
      ensures userInfo == Some(data) && currentStep == Results
      ensures currentQuestionIndex == old(currentQuestionIndex)
      ensures userAnswers == old(userAnswers) && timingData == old(timingData)
      ensures questionTimeLeft == old(questionTimeLeft) && questionTotalTime == old(questionTotalTime)
      ensures isQuestionTimerActive == old(isQuestionTimerActive)
      ensures quizStartTime == old(quizStartTime) && totalQuizTime == old(totalQuizTime)
    {
      userInfo := Some(data);
      currentStep := Results;
    }

    /** `restartQuiz`: a fresh attempt straight into the first question; the contact record stays. */
    method RestartQuiz(now: int)
      requires Valid()
      modifies this
      ensures Valid()
      ensures currentQuestionIndex == 0 && userAnswers == Unanswered(BankSize) && timingData == []
      ensures currentStep == Question && quizStartTime == Some(now)
      ensures userInfo == old(userInfo)
      ensures questionTimeLeft == old(questionTimeLeft) && questionTotalTime == old(questionTotalTime)
      ensures isQuestionTimerActive == old(isQuestionTimerActive) && totalQuizTime == old(totalQuizTime)
    {
      currentQuestionIndex := 0;
      userAnswers := Unanswered(BankSize);
      timingData := [];
      currentStep := Question;
      quizStartTime := Some(now);
    }

    /** `goToWelcome`: the same reset, and the contact record is dropped as well. */
    method GoToWelcome()
      requires Valid()
      modifies this
      ensures Valid()
      ensures currentQuestionIndex == 0 && userAnswers == Unanswered(BankSize) && timingData == []
      ensures userInfo == None && currentStep == Welcome
      ensures questionTimeLeft == old(questionTimeLeft) && questionTotalTime == old(questionTotalTime)
      ensures isQuestionTimerActive == old(isQuestionTimerActive)
      ensures quizStartTime == old(quizStartTime) && totalQuizTime == old(totalQuizTime)
    {
      currentQuestionIndex := 0;
      userAnswers := Unanswered(BankSize);
      timingData := [];
      userInfo := None;
      currentStep := Welcome;
    }
  }
}
