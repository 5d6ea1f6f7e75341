/**
 * The welcome screen (app/components/Welcome.tsx): the start button needs
 * two clicks, the first only arms it; and the per-question time is shown
 * in words.
 */
module WelcomeView {
  import opened Decimal
  import opened QuizData
  import opened QuizContext

  /** `formatTimeSeconds`: the number, then the singular only for exactly one. */
  function FormatTimeSeconds(seconds: nat): (text: string)
    ensures text == "1 segundo" <==> seconds == 1
    ensures seconds != 1 ==> text == NatToString(seconds) + " segundos"
  {
    var unit := if seconds == 1 then "segundo" else "segundos";
    var text := NatToString(seconds) + " " + unit;
    assert seconds != 1 ==> |text| >= 10;
    text
  }

  /** The default per-question time, as the screen shows it. */
  lemma FormatDefaultTime()
    ensures FormatTimeSeconds(DefaultTimeLimit) == "30 segundos"
  {
    assert NatToString(30) == "30";
  }

  class WelcomeScreen {
    const session: Session
    var isReady: bool

    ghost predicate Valid()
      reads this, session
    {
      session.Valid()
    }

    constructor (session: Session)
      requires session.Valid()
      ensures Valid() && this.session == session && !isReady
    {
      this.session := session;
      isReady := false;
    }

    /**
     * `handleStartQuiz`: an armed button starts the quiz; otherwise the
     * click only arms it.  Nothing disarms it again.
     */
    method HandleStartQuiz()
      requires Valid()
      modifies this, session
      ensures Valid()
      ensures isReady
      ensures old(isReady) ==> session.State() == old(session.State()).(currentStep := Question)
      ensures !old(isReady) ==> unchanged(session)
      ensures session.currentQuestionIndex == old(session.currentQuestionIndex)
      ensures session.userAnswers == old(session.userAnswers) && session.timingData == old(session.timingData)
      ensures session.userInfo == old(session.userInfo)
    {
      if isReady {
        session.SetCurrentStep(Question);
      } else {
        isReady := true;
      }
    }
  }
}
