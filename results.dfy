/**
 * The results screen (app/components/Results.tsx): the figures it shows,
 * the expand/collapse list of reviewed questions, the confetti flags and
 * the latch that sends the results to the webhook once.  The outcome of
 * the POST is the `deliver` parameter; the five-second confetti timeout
 * is a method of its own.
 */
module ResultsView {
  import opened Wrappers
  import opened QuizData
  import opened QuizContext
  import opened WebhookService

  const NoAnswer := "Sem resposta"
  const DefaultWebhookUrl := "https://exemplo.com/webhook"

  /** `process.env.NEXT_PUBLIC_WEBHOOK_URL || default`: an unset or empty setting gives the default. */
  function WebhookUrl(configured: Option<string>): (url: string)
    ensures configured.Some? && configured.value != "" ==> url == configured.value
    ensures configured.None? || configured.value == "" ==> url == DefaultWebhookUrl
  {
    if configured.Some? && configured.value != "" then configured.value else DefaultWebhookUrl
  }

  /** `expanded.filter(q => q !== index)`. */
  function RemoveAll(expanded: seq<int>, index: int): (r: seq<int>)
    ensures forall x :: x in r <==> x in expanded && x != index
    ensures |r| <= |expanded|
    decreases |expanded|
  {
    if expanded == [] then []
    else
      var rest := RemoveAll(expanded[..|expanded| - 1], index);
      var last := expanded[|expanded| - 1];
      assert forall x :: x in expanded <==> x in expanded[..|expanded| - 1] || x == last;
      if last == index then rest else rest + [last]
  }

  /** Filtering out a value that is not there changes nothing. */
  lemma {:induction false} RemoveAllAbsent(expanded: seq<int>, index: int)
    requires index !in expanded
    ensures RemoveAll(expanded, index) == expanded
    decreases |expanded|
  {
    if expanded != [] {
      var init := expanded[..|expanded| - 1];
      assert index !in init by {
        assert forall x :: x in init ==> x in expanded;
      }
      RemoveAllAbsent(init, index);
      assert init + [expanded[|expanded| - 1]] == expanded;
    }
  }

  /** Filtering out the value just appended removes exactly that copy, when it was the only one. */
  lemma RemoveAllAppended(expanded: seq<int>, index: int)
    requires index !in expanded
    ensures RemoveAll(expanded + [index], index) == expanded
  {
    var e := expanded + [index];
    assert e[..|e| - 1] == expanded;
    RemoveAllAbsent(expanded, index);
  }

  /** No value occurs twice. */
  predicate Distinct(s: seq<int>) {
    forall i, j :: 0 <= i < j < |s| ==> s[i] != s[j]
  }

  lemma {:induction false} RemoveAllDistinct(expanded: seq<int>, index: int)
    requires Distinct(expanded)
    ensures Distinct(RemoveAll(expanded, index))
    decreases |expanded|
  {
    if expanded != [] {
      var init := expanded[..|expanded| - 1];
      var last := expanded[|expanded| - 1];
      RemoveAllDistinct(init, index);
      assert last !in init;
      assert last !in RemoveAll(init, index);
    }
  }

  /** `toggleQuestion` on the list: drop the index if it is there, append it otherwise. */
  function Toggled(expanded: seq<int>, index: int): (r: seq<int>)
    ensures index in r <==> index !in expanded
    ensures forall x :: x != index ==> (x in r <==> x in expanded)
    ensures index !in expanded ==> r == expanded + [index]
  {
    if index in expanded then RemoveAll(expanded, index) else expanded + [index]
  }

  /** Toggling twice restores membership of every index. */
  lemma ToggleTwiceMembership(expanded: seq<int>, index: int, x: int)
    ensures x in Toggled(Toggled(expanded, index), index) <==> x in expanded
  {
  }

  /** Opening and closing a collapsed question gives back the very same list. */
  lemma ToggleTwiceFromCollapsed(expanded: seq<int>, index: int)
    requires index !in expanded
    ensures Toggled(Toggled(expanded, index), index) == expanded
  {
    RemoveAllAppended(expanded, index);
  }

  /** The list never holds an index twice. */
  lemma ToggledDistinct(expanded: seq<int>, index: int)
    requires Distinct(expanded)
    ensures Distinct(Toggled(expanded, index))
  {
    if index in expanded {
      RemoveAllDistinct(expanded, index);
    }
  }

  /** A POST started by the send effect whose `await` has not resolved yet. */
  datatype PendingPost = PendingPost(url: string, payload: WebhookPayload)

  class ResultsScreen {
    const session: Session
    var expandedQuestions: seq<int>
    var showConfetti: bool
    var webhookSent: bool
    var isMounted: bool
    /** The POSTs started and not yet resolved, oldest first. */
    var inFlight: seq<PendingPost>

    ghost predicate Valid()
      reads this, session
    {
      session.Valid() && Distinct(expandedQuestions)
    }

    constructor (session: Session)
      requires session.Valid()
      ensures Valid() && this.session == session
      ensures expandedQuestions == [] && showConfetti && !webhookSent && !isMounted && inFlight == []
    {
      this.session := session;
      expandedQuestions := [];
      showConfetti := true;
      webhookSent := false;
      isMounted := false;
      inFlight := [];
    }

    /** `correctAnswers`, the session's score. */
    function CorrectAnswers(): (n: nat)
      reads this, session
      requires Valid()
      ensures n <= BankSize
    {
      session.CurrentScore()
    }

    /** `wrongAnswers = totalQuestions - correctAnswers`: the questions not answered correctly. */
    function WrongAnswers(): (n: nat)
      reads this, session
      requires Valid()
      ensures n + CorrectAnswers() == BankSize
      ensures n == BankSize - |CorrectPositions(session.userAnswers, session.questions)|
    {
      ScoreCountsCorrectPositions(session.userAnswers, session.questions);
      BankSize - CorrectAnswers()
    }

    /** `percentCorrect`: over the ten questions, ten points per correct answer. */
    function PercentCorrect(): (p: int)
      reads this, session
      requires Valid()
      ensures p == WebhookService.PercentCorrect(CorrectAnswers(), BankSize)
      ensures p == 10 * CorrectAnswers() && 0 <= p <= 100
    {
      PercentOfTenQuestions(CorrectAnswers());
      WebhookService.PercentCorrect(CorrectAnswers(), BankSize)
    }

    /** `getResultMessage`: the same buckets as the webhook payload's message. */
    function ResultMessage(): (message: string)
      reads this, session
      requires Valid()
      ensures message == Excellent <==> CorrectAnswers() >= 9
      ensures message == VeryGood <==> 7 <= CorrectAnswers() < 9
      ensures message == Basic <==> 5 <= CorrectAnswers() < 7
      ensures message == KeepStudying <==> CorrectAnswers() < 5
    {
      WebhookService.ResultMessage(PercentCorrect())
    }

    /** `isCorrect` of one reviewed question. */
    function IsCorrectAt(index: int): (correct: bool)
      reads this, session
      requires Valid() && 0 <= index < BankSize
      ensures correct <==> CorrectAt(session.userAnswers, session.questions, index)
      ensures correct ==> session.userAnswers[index] >= 0
    {
      session.userAnswers[index] == session.questions[index].correctAnswer
    }

    /**
     * The answer shown for one reviewed question: "Sem resposta" for a
     * negative slot, the chosen option otherwise (an index past the
     * options renders as nothing).
     */
    function AnswerText(index: int): (text: string)
      reads this, session
      requires Valid() && 0 <= index < BankSize
      ensures session.userAnswers[index] < 0 ==> text == NoAnswer
      ensures 0 <= session.userAnswers[index] < 4 ==>
        text == session.questions[index].options[session.userAnswers[index]]
      ensures session.userAnswers[index] >= 4 ==> text == ""
    {
      var answer := session.userAnswers[index];
      var options := session.questions[index].options;
      if answer >= 0 then (if answer < |options| then options[answer] else "") else NoAnswer
    }

    /** The confetti shows while mounted and not yet timed out, and only for 70% or more. */
    function ShowsConfetti(): (shown: bool)
      reads this, session
      requires Valid()
      ensures shown <==> isMounted && showConfetti && CorrectAnswers() >= 7
    {
      isMounted && showConfetti && PercentCorrect() >= 70
    }

    /** The mount effect: the screen is marked mounted (the confetti timeout starts with it). */
    method MountEffect()
      requires Valid()
      modifies this
      ensures Valid()
      ensures isMounted
      ensures expandedQuestions == old(expandedQuestions) && showConfetti == old(showConfetti)
      ensures webhookSent == old(webhookSent) && inFlight == old(inFlight)
    {
      isMounted := true;
    }

    /** Five seconds after mounting the confetti is hidden for good. */
    method ConfettiTimeout()
      requires Valid()
      modifies this
      ensures Valid()
      ensures !showConfetti && !ShowsConfetti()
      ensures expandedQuestions == old(expandedQuestions) && isMounted == old(isMounted)
      ensures webhookSent == old(webhookSent) && inFlight == old(inFlight)
    {
      showConfetti := false;
    }

    /** `toggleQuestion`. */
    method ToggleQuestion(index: int)
      requires Valid()
      modifies this
      ensures Valid()
      ensures expandedQuestions == Toggled(old(expandedQuestions), index)
      ensures showConfetti == old(showConfetti) && webhookSent == old(webhookSent) && isMounted == old(isMounted)
      ensures inFlight == old(inFlight)
    {
      ToggledDistinct(expandedQuestions, index);
      if index in expandedQuestions {
        expandedQuestions := RemoveAll(expandedQuestions, index);
      } else {
        expandedQuestions := expandedQuestions + [index];
      }
    }

    /**
     * The send effect, up to the `await`: with a contact record and no
     * successful send yet, the payload is built from the session as this
     * render sees it and the POST starts.  `webhookSent` is not touched:
     * it can only change once the POST resolves (`DeliveryResolved`), so
     * until then another run of the effect sends again.  `sent` is the
     * payload posted, if any.
     */
    method SendEffect(configuredUrl: Option<string>, timestamp: string)
      returns (sent: Option<WebhookPayload>)
      requires Valid()
      modifies this
      ensures Valid()
      ensures sent.Some? <==> session.userInfo.Some? && !old(webhookSent)
      ensures sent.Some? ==> sent.value == PrepareWebhookPayload(session.questions, ProfessionOptions(),
        session.userInfo.value, session.userAnswers, session.CurrentScore(), session.timingData,
        session.totalQuizTime, timestamp)
      ensures sent.Some? ==>
        && sent.value.quizResults.percentCorrect == PercentCorrect()
        && sent.value.quizResults.resultMessage == ResultMessage()
        && sent.value.quizResults.score == CorrectAnswers()
        && sent.value.quizResults.timing.totalQuizTime == session.totalQuizTime
      ensures sent.Some? ==> inFlight == old(inFlight) + [PendingPost(WebhookUrl(configuredUrl), sent.value)]
      ensures sent.None? ==> inFlight == old(inFlight)
      ensures webhookSent == old(webhookSent)
      ensures expandedQuestions == old(expandedQuestions) && showConfetti == old(showConfetti)
      ensures isMounted == old(isMounted)
    {
      sent := None;
      if session.userInfo.Some? && !webhookSent {
        var payload := PrepareWebhookPayload(session.questions, ProfessionOptions(), session.userInfo.value,
          session.userAnswers, session.CurrentScore(), session.timingData, session.totalQuizTime, timestamp);
        inFlight := inFlight + [PendingPost(WebhookUrl(configuredUrl), payload)];
        sent := Some(payload);
      }
    }

    /**
     * The `await` of one POST in flight resolves: `submitQuizResults`
     * reports the outcome `deliver` gives for it (false also for a thrown
     * error), and only a success latches `webhookSent`.
     */
    method DeliveryResolved(k: nat, deliver: (string, WebhookPayload) -> bool) returns (success: bool)
      requires Valid() && k < |inFlight|
      modifies this
      ensures Valid()
      ensures success == deliver(old(inFlight)[k].url, old(inFlight)[k].payload)
      ensures inFlight == old(inFlight)[..k] + old(inFlight)[k + 1..]
      ensures webhookSent <==> old(webhookSent) || success
      ensures expandedQuestions == old(expandedQuestions) && showConfetti == old(showConfetti)
      ensures isMounted == old(isMounted)
    {
      var post := inFlight[k];
      success := deliver(post.url, post.payload);
      inFlight := inFlight[..k] + inFlight[k + 1..];
      if success {
        webhookSent := true;
      }
    }

    /**
     * The send effect with a second latch: no POST starts while an earlier
     * one is still in flight, so the results are posted at most once per
     * successful delivery.
     */
    method SendEffectSingleFlight(configuredUrl: Option<string>, timestamp: string)
      returns (sent: Option<WebhookPayload>)
      requires Valid()
      modifies this
      ensures Valid()
      ensures sent.Some? <==> session.userInfo.Some? && !old(webhookSent) && old(inFlight) == []
      ensures sent.Some? ==> sent.value == PrepareWebhookPayload(session.questions, ProfessionOptions(),
        session.userInfo.value, session.userAnswers, session.CurrentScore(), session.timingData,
        session.totalQuizTime, timestamp)
      ensures sent.Some? ==> inFlight == [PendingPost(WebhookUrl(configuredUrl), sent.value)]
      ensures sent.None? ==> inFlight == old(inFlight)
      ensures |inFlight| <= 1 || inFlight == old(inFlight)
      ensures webhookSent == old(webhookSent)
      ensures expandedQuestions == old(expandedQuestions) && showConfetti == old(showConfetti)
      ensures isMounted == old(isMounted)
    {
      sent := None;
      if inFlight == [] {
        sent := SendEffect(configuredUrl, timestamp);
      }
    }
  }

  /**
   * The results step is entered: the screen's send effect runs first (a
   * child's effects run before its parent's), then the provider's quiz
   * clock stores the new `totalQuizTime`, which is one of the send
   * effect's dependencies, so the effect runs again.  Neither POST has
   * resolved, `webhookSent` is still false, and two POSTs are in flight;
   * the first carries the total from before the update.
   */
  method DoubleSendBeforeResolve(screen: ResultsScreen, configuredUrl: Option<string>, timestamp: string, now: int)
    returns (first: Option<WebhookPayload>, second: Option<WebhookPayload>)
    requires screen.Valid() && screen.inFlight == [] && !screen.webhookSent
    requires screen.session.currentStep == Results && screen.session.userInfo.Some?
    requires screen.session.quizStartTime.Some? && screen.session.quizStartTime.value != 0
    modifies screen, screen.session
    ensures first.Some? && second.Some?
    ensures first.value.quizResults.timing.totalQuizTime == old(screen.session.totalQuizTime)
    ensures second.value.quizResults.timing.totalQuizTime == now - old(screen.session.quizStartTime).value
    ensures screen.inFlight == [PendingPost(WebhookUrl(configuredUrl), first.value),
                                PendingPost(WebhookUrl(configuredUrl), second.value)]
    ensures !screen.webhookSent
  {
    first := screen.SendEffect(configuredUrl, timestamp);
    screen.session.QuizClockEffect(now);
    second := screen.SendEffect(configuredUrl, timestamp);
  }

  /** The same renders with the single-flight latch: one POST is in flight. */
  method SingleSendBeforeResolve(screen: ResultsScreen, configuredUrl: Option<string>, timestamp: string, now: int)
    returns (first: Option<WebhookPayload>, second: Option<WebhookPayload>)
    requires screen.Valid() && screen.inFlight == [] && !screen.webhookSent
    requires screen.session.currentStep == Results && screen.session.userInfo.Some?
    requires screen.session.quizStartTime.Some? && screen.session.quizStartTime.value != 0
    modifies screen, screen.session
    ensures first.Some? && second.None?
    ensures screen.inFlight == [PendingPost(WebhookUrl(configuredUrl), first.value)]
    ensures !screen.webhookSent
  {
    first := screen.SendEffectSingleFlight(configuredUrl, timestamp);
    screen.session.QuizClockEffect(now);
    second := screen.SendEffectSingleFlight(configuredUrl, timestamp);
  }
}
