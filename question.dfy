/**
 * The question screen (app/components/Question.tsx): the `showFeedback` and
 * `timerExpired` latches, the start time of the current question, and the
 * handlers that drive the session.  The handlers run in the order of the
 * source; `Date.now()` is the `now` parameter, the random choice of a wrong
 * option is a nondeterministic choice, and the 500 ms `setTimeout` that
 * reveals the feedback after a timeout is a pending flag with a method of
 * its own, run when the delay has passed.
 */
module QuestionView {
  import opened Wrappers
  import opened QuizData
  import opened QuizContext

  /**
   * The option indices other than the correct one, in increasing order:
   * `options.map((_, i) => i).filter(i => i !== correctAnswer)` over n options.
   */
  function IndicesExcept(n: nat, correct: int): (r: seq<int>)
    ensures forall k :: k in r <==> 0 <= k < n && k != correct
    ensures forall a, b :: 0 <= a < b < |r| ==> r[a] < r[b]
    ensures |r| == if 0 <= correct < n then n - 1 else n
  {
    if n == 0 then []
    else
      var before := IndicesExcept(n - 1, correct);
      assert forall a :: 0 <= a < |before| ==> before[a] in before;
      before + (if n - 1 != correct then [n - 1] else [])
  }

  /** The wrong options of a question, the candidates for the timeout answer. */
  function IncorrectOptions(q: QuizQuestion): (r: seq<int>)
    ensures forall k :: k in r <==> 0 <= k < |q.options| && k != q.correctAnswer
    ensures WellFormed(q) ==> |r| == 3
  {
    IndicesExcept(|q.options|, q.correctAnswer)
  }

  class QuestionScreen {
    const session: Session
    var showFeedback: bool
    var timerExpired: bool
    var questionStartTime: int
    /** A `setTimeout(() => setShowFeedback(true), 500)` has been scheduled and has not fired. */
    var feedbackScheduled: bool

    ghost predicate Valid()
      reads this, session
    {
      session.Valid()
    }

    /** The question on screen. */
    function CurrentQuestion(): (q: QuizQuestion)
      reads this, session
      requires Valid()
      ensures WellFormed(q)
    {
      session.questions[session.currentQuestionIndex]
    }

    /** `selectedAnswer`: the slot of the current question (-1 while unanswered). */
    function SelectedAnswer(): (answer: int)
      reads this, session
      requires Valid()
      ensures session.userAnswers == Unanswered(BankSize) ==> answer == -1
    {
      session.userAnswers[session.currentQuestionIndex]
    }

    /** `isAnswerCorrect`, which chooses between the two feedback texts. */
    function IsAnswerCorrect(): (correct: bool)
      reads this, session
      requires Valid()
      ensures correct ==> 0 <= SelectedAnswer() < 4
    {
      SelectedAnswer() == CurrentQuestion().correctAnswer
    }

    /** The texts of the question on screen; its two feedback texts differ. */
    function CurrentWording(): (w: Wording)
      reads this, session
      requires Valid()
      ensures w.correctFeedback != w.incorrectFeedback
    {
      session.wordings[session.currentQuestionIndex]
    }

    /**
     * `getFeedback`.  The two texts of a question differ, so the text shown
     * tells a correct answer from a wrong one.
     */
    function Feedback(): (text: string)
      reads this, session
      requires Valid()
      ensures text == CurrentWording().correctFeedback <==> IsAnswerCorrect()
      ensures text == CurrentWording().incorrectFeedback <==> !IsAnswerCorrect()
    {
      var w := CurrentWording();
      if IsAnswerCorrect() then w.correctFeedback else w.incorrectFeedback
    }

    /**
     * The `isActive` the countdown is drawn with: never while feedback is
     * shown, and never while the session timer is paused.
     */
    function TimerShownActive(): (running: bool)
      reads this, session
      ensures showFeedback ==> !running
      ensures !session.isQuestionTimerActive ==> !running
    {
      session.isQuestionTimerActive && !showFeedback
    }

    /** Mounting the screen: the state initialisers. */
    constructor (session: Session, now: int)
      requires session.Valid()
      ensures Valid() && this.session == session
      ensures !showFeedback && !timerExpired && !feedbackScheduled && questionStartTime == now
    {
      this.session := session;
      showFeedback := false;
      timerExpired := false;
      questionStartTime := now;
      feedbackScheduled := false;
    }

    /** The effect on `[currentQuestionIndex]`: a new question starts with both latches clear. */
    method QuestionChangeEffect(now: int)
      requires Valid()
      modifies this
      ensures Valid()
      ensures questionStartTime == now && !showFeedback && !timerExpired
      ensures feedbackScheduled == old(feedbackScheduled)
    {
      questionStartTime := now;
      showFeedback := false;
      timerExpired := false;
    }

    /**
     * The effects a change of question sets off besides the expiry check:
     * this screen's reset, then the provider's countdown restart (React runs
     * a child's effects before its parent's).  On the question step the new
     * question starts with a full, running countdown.
     */
    method IndexChangeEffects(now: int)
      requires Valid()
      modifies this, session
      ensures Valid()
      ensures questionStartTime == now && !showFeedback && !timerExpired
      ensures feedbackScheduled == old(feedbackScheduled)
      ensures old(session.currentStep) == Question ==>
        && TimerShownActive()
        && session.State() == old(session.State()).(questionTimeLeft := DefaultTimeLimit,
             questionTotalTime := DefaultTimeLimit, isQuestionTimerActive := true)
      ensures old(session.currentStep) != Question ==>
        && !TimerShownActive()
        && session.State() == old(session.State()).(isQuestionTimerActive := false)
    {
      QuestionChangeEffect(now);
      session.QuestionTimerEffect();
    }

    /**
     * The expiry effect: the timeout handler runs exactly when the
     * countdown shows 0, no feedback is shown, the timeout has not been
     * handled yet and the session timer is still active.
     */
    method ExpiryEffect(now: int) returns (fired: bool)
      requires Valid()
      modifies this, session
      ensures Valid()
      ensures fired <==> old(session.questionTimeLeft) == 0 && !old(showFeedback)
                         && !old(timerExpired) && old(session.isQuestionTimerActive)
      ensures !old(session.isQuestionTimerActive) ==> !fired
      ensures !fired || old(SelectedAnswer()) != -1 ==> unchanged(this, session)
      ensures fired && old(SelectedAnswer()) == -1 ==>
        && timerExpired && feedbackScheduled
        && showFeedback == old(showFeedback) && questionStartTime == old(questionStartTime)
        && session.State() == old(session.State()).(
             timingData := old(session.timingData)
               + [TimingData(old(session.currentQuestionIndex), now - old(questionStartTime), true)],
             userAnswers := old(session.userAnswers)[old(session.currentQuestionIndex) := SelectedAnswer()])
        && SelectedAnswer() in IncorrectOptions(CurrentQuestion())
        && !IsAnswerCorrect()
        && Feedback() == CurrentWording().incorrectFeedback
    {
      fired := session.questionTimeLeft == 0 && !showFeedback && !timerExpired && session.isQuestionTimerActive;
      if fired {
        var _ := HandleTimeUp(now);
      }
    }

    /**
     * `handleSelectAnswer`: ignored once feedback is shown; otherwise the
     * option is written into the current slot and the countdown pauses.
     */
    method HandleSelectAnswer(index: int)
      requires Valid()
      modifies session
      ensures Valid()
      ensures old(showFeedback) ==> unchanged(session)
      ensures !old(showFeedback) ==>
        && session.State() == old(session.State()).(
             userAnswers := old(session.userAnswers)[old(session.currentQuestionIndex) := index],
             isQuestionTimerActive := false)
        && SelectedAnswer() == index
        && !TimerShownActive()
    {
      if showFeedback {
        return;
      }
      session.AnswerQuestion(session.currentQuestionIndex, index);
      session.PauseTimer();
    }

    /**
     * `handleSubmitAnswer`: ignored while nothing is selected; otherwise one
     * non-expired record with the elapsed time is appended and the
     * feedback is shown.
     */
    method HandleSubmitAnswer(now: int)
      requires Valid()
      modifies this, session
      ensures Valid()
      ensures old(SelectedAnswer()) == -1 ==> unchanged(this, session)
      ensures old(SelectedAnswer()) != -1 ==>
        && session.State() == old(session.State()).(
             timingData := old(session.timingData)
               + [TimingData(old(session.currentQuestionIndex), now - old(questionStartTime), false)])
        && showFeedback && !TimerShownActive()
        && timerExpired == old(timerExpired) && questionStartTime == old(questionStartTime)
        && feedbackScheduled == old(feedbackScheduled)
    {
      if SelectedAnswer() == -1 {
        return;
      }
      var responseTime := now - questionStartTime;
      session.RecordTimingData(responseTime, false);
      showFeedback := true;
    }

    /** `handleNextQuestion`: both latches clear, then the session advances. */
    method HandleNextQuestion()
      requires Valid()
      modifies this, session
      ensures Valid()
      ensures !showFeedback && !timerExpired
      ensures questionStartTime == old(questionStartTime) && feedbackScheduled == old(feedbackScheduled)
      ensures old(session.currentQuestionIndex) < BankSize - 1 ==>
        session.State() == old(session.State()).(currentQuestionIndex := old(session.currentQuestionIndex) + 1)
      ensures old(session.currentQuestionIndex) >= BankSize - 1 ==>
        session.State() == old(session.State()).(currentStep := UserForm)
    {
      showFeedback := false;
      timerExpired := false;
      session.GoToNextQuestion();
    }

    /**
     * `handleTimeUp`: only with nothing selected and no feedback shown.  It
     * latches `timerExpired`, appends one expired record, writes a wrong
     * option (any of them) into the current slot and schedules the feedback.
     * `picked` is the option written, when the handler acted.  The countdown
     * is left running, and the options stay clickable.
     */
    method HandleTimeUp(now: int) returns (picked: Option<int>)
      requires Valid()
      modifies this, session
      ensures Valid()
      ensures picked.Some? <==> old(SelectedAnswer()) == -1 && !old(showFeedback)
      ensures picked.None? ==> unchanged(this, session)
      ensures picked.Some? ==>
        && timerExpired && feedbackScheduled
        && showFeedback == old(showFeedback) && questionStartTime == old(questionStartTime)
        && session.State() == old(session.State()).(
             timingData := old(session.timingData)
               + [TimingData(old(session.currentQuestionIndex), now - old(questionStartTime), true)],
             userAnswers := old(session.userAnswers)[old(session.currentQuestionIndex) := picked.value])
        && picked.value in IncorrectOptions(CurrentQuestion())
        && SelectedAnswer() == picked.value
        && !IsAnswerCorrect()
        && Feedback() == CurrentWording().incorrectFeedback
    {
      picked := None;
      var isAnswerSelected := SelectedAnswer() != -1;
      if !isAnswerSelected && !showFeedback {
        timerExpired := true;
        var responseTime := now - questionStartTime;
        session.RecordTimingData(responseTime, true);
        if SelectedAnswer() == -1 {
          var incorrectOptions := IncorrectOptions(CurrentQuestion());
          var choice :| 0 <= choice < |incorrectOptions|;
          var randomIncorrectIndex := incorrectOptions[choice];
          assert randomIncorrectIndex in incorrectOptions;
          session.AnswerQuestion(session.currentQuestionIndex, randomIncorrectIndex);
          picked := Some(randomIncorrectIndex);
          feedbackScheduled := true;
        }
      }
    }

    /** The scheduled 500 ms callback fires: the feedback is shown and the countdown drawn stopped. */
    method FeedbackDelayElapsed()
      requires Valid()
      requires feedbackScheduled
      modifies this
      ensures Valid()
      ensures showFeedback && !feedbackScheduled && !TimerShownActive()
      ensures timerExpired == old(timerExpired) && questionStartTime == old(questionStartTime)
    {
      showFeedback := true;
      feedbackScheduled := false;
    }

    /**
     * The selection handler with the lock a timed-out question evidently
     * needs: once the timeout is handled, a click changes nothing.
     */
    method HandleSelectAnswerLocked(index: int)
      requires Valid()
      modifies session
      ensures Valid()
      ensures old(showFeedback) || old(timerExpired) ==> unchanged(session)
      ensures !old(showFeedback) && !old(timerExpired) ==>
        && session.State() == old(session.State()).(
             userAnswers := old(session.userAnswers)[old(session.currentQuestionIndex) := index],
             isQuestionTimerActive := false)
        && SelectedAnswer() == index
    {
      if timerExpired {
        return;
      }
      HandleSelectAnswer(index);
    }

    /**
     * The timeout handler with the countdown stopped once it has acted, as
     * the selection handler stops it: the zero left on the clock can then
     * no longer fire the next question's expiry check.
     */
    method HandleTimeUpPausing(now: int) returns (picked: Option<int>)
      requires Valid()
      modifies this, session
      ensures Valid()
      ensures picked.Some? <==> old(SelectedAnswer()) == -1 && !old(showFeedback)
      ensures picked.None? ==> unchanged(this, session)
      ensures picked.Some? ==>
        && timerExpired && feedbackScheduled
        && showFeedback == old(showFeedback) && questionStartTime == old(questionStartTime)
        && session.State() == old(session.State()).(
             timingData := old(session.timingData)
               + [TimingData(old(session.currentQuestionIndex), now - old(questionStartTime), true)],
             userAnswers := old(session.userAnswers)[old(session.currentQuestionIndex) := picked.value],
             isQuestionTimerActive := false)
        && picked.value in IncorrectOptions(CurrentQuestion())
        && !IsAnswerCorrect()
    {
      picked := HandleTimeUp(now);
      if picked.Some? {
        session.PauseTimer();
      }
    }

    /** The expiry check driving HandleTimeUpPausing. */
    method ExpiryEffectPausing(now: int) returns (fired: bool)
      requires Valid()
      modifies this, session
      ensures Valid()
      ensures fired <==> old(session.questionTimeLeft) == 0 && !old(showFeedback)
                         && !old(timerExpired) && old(session.isQuestionTimerActive)
      ensures !fired || old(SelectedAnswer()) != -1 ==> unchanged(this, session)
      ensures fired && old(SelectedAnswer()) == -1 ==>
        && timerExpired && feedbackScheduled
        && showFeedback == old(showFeedback) && questionStartTime == old(questionStartTime)
        && session.State() == old(session.State()).(
             timingData := old(session.timingData)
               + [TimingData(old(session.currentQuestionIndex), now - old(questionStartTime), true)],
             userAnswers := old(session.userAnswers)[old(session.currentQuestionIndex) := SelectedAnswer()],
             isQuestionTimerActive := false)
        && !IsAnswerCorrect()
    {
      fired := session.questionTimeLeft == 0 && !showFeedback && !timerExpired && session.isQuestionTimerActive;
      if fired {
        var _ := HandleTimeUpPausing(now);
      }
    }
  }

  /**
   * A click in the 500 ms between a timeout and its feedback: the question
   * timed out, yet it ends answered correctly, with two records of which
   * the first, the one the webhook reports, says it expired.
   */
  method LateSelectAfterTimeout(screen: QuestionScreen, expiredAt: int, confirmedAt: int)
    requires screen.Valid() && screen.SelectedAnswer() == -1 && !screen.showFeedback
    modifies screen, screen.session
    ensures screen.Valid()
    ensures screen.timerExpired && screen.IsAnswerCorrect()
    ensures screen.session.currentQuestionIndex == old(screen.session.currentQuestionIndex)
    ensures screen.session.timingData == old(screen.session.timingData) + [
      TimingData(old(screen.session.currentQuestionIndex), expiredAt - old(screen.questionStartTime), true),
      TimingData(old(screen.session.currentQuestionIndex), confirmedAt - old(screen.questionStartTime), false)]
  {
    var _ := screen.HandleTimeUp(expiredAt);
    screen.HandleSelectAnswer(screen.CurrentQuestion().correctAnswer);
    screen.HandleSubmitAnswer(confirmedAt);
  }

  /** With the lock, the same click leaves the timed-out question wrong. */
  method LateSelectIgnoredWhenLocked(screen: QuestionScreen, expiredAt: int)
    requires screen.Valid() && screen.SelectedAnswer() == -1 && !screen.showFeedback
    modifies screen, screen.session
    ensures screen.Valid()
    ensures screen.timerExpired && !screen.IsAnswerCorrect()
  {
    var _ := screen.HandleTimeUp(expiredAt);
    screen.HandleSelectAnswerLocked(screen.CurrentQuestion().correctAnswer);
  }

  /**
   * After a timeout the countdown stays active at 0.  Moving on clears both
   * latches, and in the commit of the next question the expiry check runs
   * before the provider restarts the countdown, so it fires again at once:
   * the next question is failed before it is even shown.  The start time
   * the index effect sets in the same commit is not yet visible to the
   * handler, which measures from the previous question's start.
   */
  method TimeoutCarriesOver(screen: QuestionScreen, expiredAt: int, nextAt: int)
      returns (first: bool, second: bool)
    requires screen.Valid()
    requires screen.session.currentQuestionIndex < BankSize - 1
    requires screen.session.questionTimeLeft == 0 && screen.session.isQuestionTimerActive
    requires !screen.showFeedback && !screen.timerExpired && screen.SelectedAnswer() == -1
    requires screen.session.userAnswers[screen.session.currentQuestionIndex + 1] == -1
    modifies screen, screen.session
    ensures first && second
    ensures screen.Valid()
    ensures screen.session.currentQuestionIndex == old(screen.session.currentQuestionIndex) + 1
    ensures screen.timerExpired && !screen.IsAnswerCorrect()
    ensures screen.session.timingData == old(screen.session.timingData) + [
      TimingData(old(screen.session.currentQuestionIndex), expiredAt - old(screen.questionStartTime), true),
      TimingData(old(screen.session.currentQuestionIndex) + 1, nextAt - old(screen.questionStartTime), true)]
  {
    first := screen.ExpiryEffect(expiredAt);
    screen.FeedbackDelayElapsed();
    screen.HandleNextQuestion();
    second := screen.ExpiryEffect(nextAt);
  }

  /**
   * With the countdown paused by the timeout, the next question's expiry
   * check stays quiet and the index effects then give the question its
   * full time.
   */
  method TimeoutStopsWhenPaused(screen: QuestionScreen, expiredAt: int, nextAt: int)
      returns (first: bool, second: bool)
    requires screen.Valid()
    requires screen.session.currentStep == Question
    requires screen.session.currentQuestionIndex < BankSize - 1
    requires screen.session.questionTimeLeft == 0 && screen.session.isQuestionTimerActive
    requires !screen.showFeedback && !screen.timerExpired && screen.SelectedAnswer() == -1
    requires screen.session.userAnswers[screen.session.currentQuestionIndex + 1] == -1
    modifies screen, screen.session
    ensures first && !second
    ensures screen.Valid()
    ensures screen.session.currentQuestionIndex == old(screen.session.currentQuestionIndex) + 1
    ensures screen.SelectedAnswer() == -1 && screen.questionStartTime == nextAt
    ensures screen.session.questionTimeLeft == DefaultTimeLimit && screen.TimerShownActive()
    ensures |screen.session.timingData| == |old(screen.session.timingData)| + 1
  {
    first := screen.ExpiryEffectPausing(expiredAt);
    screen.FeedbackDelayElapsed();
    screen.HandleNextQuestion();
    second := screen.ExpiryEffectPausing(nextAt);
    screen.IndexChangeEffects(nextAt);
  }
}
