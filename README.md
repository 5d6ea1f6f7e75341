# Quiz Anatomia Sem Medo — a verified model of the quiz core

Quiz Anatomia Sem Medo is a Next.js lead-capture quiz. A visitor starts
from a welcome screen and answers ten timed anatomy questions. They then
fill in a contact form, and the results screen sends the whole attempt
to a webhook once. This project models the quiz core in Dafny 4.11 and
proves its properties:

- the session state of the quiz provider (`QuizContext`);
- the controller of one question (`QuestionView`);
- the question bank (`QuizData`);
- the payload builder of the webhook service (`WebhookService`);
- the contact-form validators and phone mask (`UserFormView`);
- the results screen (`ResultsView`);
- the timer's classification and `m:ss` rendering (`Timer`);
- the two-click start of the welcome screen (`WelcomeView`).

Each part takes the form of its source:

- State the source updates through React setters is a class with `var`
  fields: the session, and the question, form, results and welcome
  screens. Their methods carry `modifies` clauses and state the whole
  new state of what they modify. A method that changes the session
  states it as one equation on `Session.State()`, the session's mutable
  fields as one value: `session.State() == old(session.State()).(…)`.
- Every React effect, the one-second tick and every `setTimeout`
  callback is an explicit method. The caller runs it when React or the
  browser would. React runs a child's effects before its parent's, and
  a state update becomes visible only at the next render; the scenario
  methods below follow that order.
- `Date.now()` is a `now` parameter, and the ISO timestamp is a
  `timestamp` parameter.
- The random choice of a wrong option is a nondeterministic choice.
- The webhook POST is split at its `await`. `ResultsScreen.SendEffect`
  starts it and records it in `inFlight`. `ResultsScreen.DeliveryResolved`
  resolves one POST in flight, with the outcome given by a `deliver`
  function parameter.
- Pure expressions are functions, and their meaning is proved in lemmas.

The session holds the bank in two `const` fields. `questions` holds the
question records. `wordings` holds, position by position, each
question's text and its two feedback texts. The constructor sets them
to the bank, and `Valid()` records the shape every screen relies on.
`BankShape` means ten well-formed questions without time limits.
`WordingsShape` means ten wordings whose two feedback texts differ.

Two observations the proofs bring out:

- By `FormattedPhoneAcceptedIff11`, the phone mask only ever produces a
  text the validator accepts when exactly eleven digits were typed. Ten
  digits come out as `(DD) DDDDD-DDD`, which neither pattern matches,
  although the bare-digit pattern `^\d{10,11}$` admits ten. So a
  ten-digit landline typed through the form is always rejected.
- Both phone patterns reject a blank value, so an accepted phone is
  never also the "required" case (`PhoneAccepted`).

The "## Findings" table lists three behaviours of the source that the
model exhibits and corrects.

## Model

| member | source | states |
|---|---|---|
| QuizContext.Unanswered | app/context/QuizContext.tsx:63 | `Array(n).fill(-1)`: n slots, every one `-1` |
| QuizContext.Score | app/context/QuizContext.tsx:75-77 | the reduce over the answers; never more than the number of answers or of questions |
| QuizContext.ScoreCountsCorrectPositions | app/context/QuizContext.tsx:75-77 | score equals the number of positions whose answer equals that question's correctAnswer |
| QuizContext.UnansweredNeverCorrect | app/context/QuizContext.tsx:63-77 | a `-1` slot never scores when every correctAnswer is a real index |
| QuizContext.ScoreZeroWhenNoneCorrect | app/context/QuizContext.tsx:75-77 | with no slot matching, the score is 0 |
| QuizContext.ScoreFullWhenAllCorrect | app/context/QuizContext.tsx:75-77 | with every slot matching, the score is the number of answers |
| QuizContext.ScoreAfterWrite | app/context/QuizContext.tsx:75-131 | writing one slot changes the score only by that slot's change of correctness |
| QuizContext.NumTimeouts | app/context/QuizContext.tsx:83 | the count of expired records: at most the record count; 0 iff none expired; the full count iff all expired |
| QuizContext.NumTimeoutsCountsExpired | app/context/QuizContext.tsx:83 | numTimeouts equals the number of records with didExpire true |
| QuizContext.NumTimeoutsAppend | app/context/QuizContext.tsx:83-158 | appending a record adds one timeout iff that record expired |
| QuizContext.TotalResponseTime | app/context/QuizContext.tsx:79-81 | the sum of the response times: 0 with no records, never negative when no record is |
| QuizContext.TotalResponseTimeAppend | app/context/QuizContext.tsx:79-81 | appending a record adds exactly its response time to the sum |
| QuizContext.AverageResponseTime | app/context/QuizContext.tsx:79-81 | 0 with no records; otherwise the mean, whose product with the count is the total response time |
| QuizContext.TimeLimitFor | app/context/QuizContext.tsx:103-104 | `timeLimit \|\| 30`: 30 exactly when the question is missing or its limit is absent or 0; otherwise the question's own limit |
| QuizContext.BankTimeLimitIsDefault | app/context/QuizContext.tsx:104 | for the bank, every question gets the 30-second default |
| QuizContext.Session.constructor | app/context/QuizContext.tsx:61-72 | the initial state: the bank and its wordings, step welcome, index 0, ten `-1` answers, no user, no records, timer 30/30 and inactive, no start time, total 0 |
| QuizContext.Session.CurrentScore | app/context/QuizContext.tsx:75-77 | the session's score is at most the number of questions |
| QuizContext.Session.CurrentNumTimeouts | app/context/QuizContext.tsx:83 | the session's timeouts never exceed its records |
| QuizContext.Session.CurrentAverageResponseTime | app/context/QuizContext.tsx:79-81 | 0 when the session has no records |
| QuizContext.Session.SetCurrentStep | app/context/QuizContext.tsx:61 | only the step changes |
| QuizContext.Session.AnswerQuestion | app/context/QuizContext.tsx:127-131 | writes only slot questionIndex; the length and every other slot are unchanged, and so is the rest of the state |
| QuizContext.Session.GoToNextQuestion | app/context/QuizContext.tsx:133-139 | below the last question the index goes up by one; at the last, the index stays and the step becomes userForm; the index stays in range |
| QuizContext.Session.PauseTimer | app/context/QuizContext.tsx:141-143 | only isQuestionTimerActive changes, to false |
| QuizContext.Session.ResumeTimer | app/context/QuizContext.tsx:145-147 | only isQuestionTimerActive changes, to true |
| QuizContext.Session.Tick | app/context/QuizContext.tsx:86-98 | while active with time left, timeLeft drops by exactly 1; otherwise nothing changes; timeLeft never goes negative |
| QuizContext.Session.QuestionTimerEffect | app/context/QuizContext.tsx:100-112 | on the question step, timeLeft = totalTime = the question's limit and the timer is active; on any other step the timer is inactive |
| QuizContext.Session.QuizClockEffect | app/context/QuizContext.tsx:114-124 | welcome clears the start time and the total; the first question records the start; results with a non-zero start set the total to now − start |
| QuizContext.Session.RecordTimingData | app/context/QuizContext.tsx:149-158 | appends exactly one record tagged with currentQuestionIndex and keeps the earlier records in order |
| QuizContext.Session.SetUserData | app/context/QuizContext.tsx:160-163 | stores the contact record and sets step results |
| QuizContext.Session.RestartQuiz | app/context/QuizContext.tsx:165-171 | index 0, all answers `-1`, no records, step question, start time now; userInfo unchanged |
| QuizContext.Session.GoToWelcome | app/context/QuizContext.tsx:173-179 | index 0, all answers `-1`, no records, userInfo cleared, step welcome |
| QuestionView.IndicesExcept | app/components/Question.tsx:91-93 | the indices below n except the correct one, increasing, one fewer when the correct one is in range |
| QuestionView.IncorrectOptions | app/components/Question.tsx:91-93 | exactly the option indices other than correctAnswer; three of them for a well-formed question |
| QuestionView.QuestionScreen.CurrentQuestion | app/components/Question.tsx:26 | the question on screen is well formed |
| QuestionView.QuestionScreen.SelectedAnswer | app/components/Question.tsx:31 | the current slot; `-1` while the answers are the fresh ones |
| QuestionView.QuestionScreen.CurrentWording | app/components/Question.tsx:26 | the texts of the question on screen, whose two feedback texts differ |
| QuestionView.QuestionScreen.IsAnswerCorrect | app/components/Question.tsx:31-33 | a correct selection is a real option index |
| QuestionView.QuestionScreen.Feedback | app/components/Question.tsx:72-78 | the correct feedback text iff the selection is correct and the incorrect one iff it is not; the two differ, so the text tells the cases apart |
| QuestionView.QuestionScreen.TimerShownActive | app/components/Question.tsx:157-162 | never drawn running while feedback is shown or the session timer is paused; the handlers and effects below state when it is |
| QuestionView.QuestionScreen.constructor | app/components/Question.tsx:28-30 | both latches clear, start time now |
| QuestionView.QuestionScreen.QuestionChangeEffect | app/components/Question.tsx:35-40 | a new question sets the start time to now and clears showFeedback and timerExpired |
| QuestionView.QuestionScreen.IndexChangeEffects | app/components/Question.tsx:35-40 | the screen reset, then the provider countdown restart: on the question step a full 30-second countdown drawn running; otherwise only the timer stops |
| QuestionView.QuestionScreen.ExpiryEffect | app/components/Question.tsx:43-47 | fires iff timeLeft is 0, feedback is hidden, timerExpired is false and the timer is active; when it fires with nothing selected, the new state is HandleTimeUp's (an expired record, a wrong option, the incorrect feedback); otherwise nothing changes |
| QuestionView.QuestionScreen.HandleSelectAnswer | app/components/Question.tsx:49-54 | no-op once feedback is shown; otherwise writes the current slot and pauses the timer, so the countdown is drawn stopped; nothing else in the session changes |
| QuestionView.QuestionScreen.HandleSubmitAnswer | app/components/Question.tsx:56-64 | no-op while the selection is `-1`; otherwise appends one non-expired record with the elapsed time and shows the feedback, with the countdown drawn stopped; nothing else changes |
| QuestionView.QuestionScreen.HandleNextQuestion | app/components/Question.tsx:66-70 | clears both latches, then the session advances as GoToNextQuestion does and nothing else in it changes |
| QuestionView.QuestionScreen.HandleTimeUp | app/components/Question.tsx:80-104 | acts iff nothing is selected and no feedback is shown; then latches timerExpired, appends one expired record, writes a wrong option and schedules the feedback, and nothing else changes; right after the handler the question scores wrong and the incorrect feedback is due, but the countdown keeps running |
| QuestionView.QuestionScreen.FeedbackDelayElapsed | app/components/Question.tsx:99-101 | the delayed callback shows the feedback and the countdown is drawn stopped |
| QuestionView.QuestionScreen.HandleSelectAnswerLocked | app/components/Question.tsx:49-54 | corrected selection: also ignored once the timeout is handled |
| QuestionView.QuestionScreen.HandleTimeUpPausing | app/components/Question.tsx:80-104 | corrected timeout handler: as HandleTimeUp, and the countdown also pauses |
| QuestionView.QuestionScreen.ExpiryEffectPausing | app/components/Question.tsx:43-47 | the expiry check driving HandleTimeUpPausing: same guard, and the timer is left paused |
| QuestionView.LateSelectAfterTimeout | app/components/Question.tsx:49-104 | timeout, a click on the correct option, confirm: the question ends correct, with an expired record followed by a non-expired one |
| QuestionView.LateSelectIgnoredWhenLocked | app/components/Question.tsx:49-54 | with the lock the same click leaves the timed-out question wrong |
| QuestionView.TimeoutCarriesOver | app/components/Question.tsx:35-104 | after a timeout and Next, the expiry check fires on the next question at once and marks it expired and wrong |
| QuestionView.TimeoutStopsWhenPaused | app/components/Question.tsx:35-104 | with the pausing handler the next question's check stays quiet and the question starts with 30 seconds drawn running |
| WebhookService.ResultMessage | app/utils/webhookService.ts:44-49 | each message exactly on its band: ≥ 90, [70, 90), [50, 70), < 50 |
| WebhookService.ResultMessageMonotone | app/utils/webhookService.ts:44-49 | a higher percentage never gets a lower tier |
| WebhookService.PercentCorrect | app/utils/webhookService.ts:60-61 | Math.round(score / total × 100): 2t·p ≤ 200·s + t < 2t·(p + 1) |
| WebhookService.PercentCorrectInRange | app/utils/webhookService.ts:60-61 | within [0, 100] whenever 0 ≤ score ≤ total |
| WebhookService.PercentCorrectIsNearest | app/utils/webhookService.ts:61 | within half a point of the exact 100 · score / total |
| WebhookService.PercentOfTenQuestions | app/utils/webhookService.ts:61 | over ten questions, exactly 10 × score |
| WebhookService.FindTiming | app/utils/webhookService.ts:74 | `find`: the first record with that questionId, None iff there is none |
| WebhookService.AnswerAt | app/utils/webhookService.ts:73 | the user's answer at the position, `-1` when the answers stop short of it |
| WebhookService.Analyze | app/utils/webhookService.ts:72-87 | questionId and correctAnswer copied from the question; isCorrect iff userAnswer == correctAnswer; timing from the first matching record, else 0 and not expired |
| WebhookService.QuestionsAnalysis | app/utils/webhookService.ts:72-87 | one entry per question, in order |
| WebhookService.PrepareWebhookPayload | app/utils/webhookService.ts:51-121 | echoes questions, profession options, userInfo, userAnswers, score and totalQuizTime; totalQuestions is the bank length; percent, message, timeouts, average and analysis as defined; version "1.0.0", event "quiz_completed" |
| WebhookService.CountCorrect | app/utils/webhookService.ts:83 | never more than the number of entries |
| WebhookService.AnalysisAgreesWithScore | app/utils/webhookService.ts:72-87 | with one answer per question, the entries marked correct number exactly the score |
| WebhookService.ScoreIgnoresLongerBank | app/context/QuizContext.tsx:75-77 | the score looks only at the questions the answers reach |
| WebhookService.SubmitQuizResults | app/utils/webhookService.ts:146-174 | the delivery outcome of the payload built from the same arguments, sent to webhookUrl |
| UserFormView.IsJsSpace | app/components/UserForm.tsx:41 | the white space of `trim` and `\s` contains no digit and none of `@ . ( ) -` |
| UserFormView.TrimStart | app/components/UserForm.tsx:41 | leading white space removed: a suffix that does not start with white space, empty iff the text is all white space |
| UserFormView.TrimEnd | app/components/UserForm.tsx:41 | trailing white space removed: a prefix that does not end with white space, empty iff the text is all white space |
| UserFormView.Trim | app/components/UserForm.tsx:41 | `trim()`: no longer than the text, with no white space at either end |
| UserFormView.BlankIffTrimmedEmpty | app/components/UserForm.tsx:41-54 | `Blank`, the test `!s.trim()`, holds iff the trimmed text is empty |
| UserFormView.LooksLikeEmail | app/components/UserForm.tsx:49 | a match has at least 5 characters, contains `@` and is not blank |
| UserFormView.MatchesMaskedPhone | app/components/UserForm.tsx:57 | a text of the masked pattern never also matches the bare-digit pattern |
| UserFormView.MatchesDigitPhone | app/components/UserForm.tsx:57 | a match starts and ends with a digit |
| UserFormView.PhoneAccepted | app/components/UserForm.tsx:57 | a phone either pattern accepts is never blank |
| UserFormView.NameError | app/components/UserForm.tsx:41-44 | the name message is set iff the trimmed name is empty |
| UserFormView.EmailError | app/components/UserForm.tsx:46-52 | "required" iff the trimmed value is empty; "invalid" iff non-blank and not matching `\S+@\S+\.\S+`; empty iff it matches |
| UserFormView.PhoneError | app/components/UserForm.tsx:54-60 | "required" iff the trimmed value is empty; "invalid" iff non-blank and neither `(DD) DDDDD-DDDD` nor 10–11 digits; empty iff accepted |
| UserFormView.ProfessionError | app/components/UserForm.tsx:62-65 | the profession message is set iff profession is empty |
| UserFormView.NoErrorsIffValid | app/components/UserForm.tsx:31-69 | all four messages are empty iff the record is valid |
| UserFormView.StripNonDigits | app/components/UserForm.tsx:82 | `replace(/\D/g, '')` leaves only digits and never lengthens |
| UserFormView.StripNonDigitsAppend | app/components/UserForm.tsx:82 | stripping distributes over concatenation |
| UserFormView.StripNonDigitsOfDigits | app/components/UserForm.tsx:82 | a digit string strips to itself |
| UserFormView.StripNonDigitsIdempotent | app/components/UserForm.tsx:82 | stripping twice is stripping once |
| UserFormView.FormatPhone | app/components/UserForm.tsx:84-91 | the mask's length: as typed up to 2 digits, +3 up to 7, +4 from 8 |
| UserFormView.FormatPhoneRoundTrip | app/components/UserForm.tsx:82-93 | stripping the formatted phone gives back exactly the input digits in order |
| UserFormView.FormatPhoneStable | app/components/UserForm.tsx:82-93 | re-masking a masked phone gives the same text |
| UserFormView.FormattedPhoneAcceptedIff11 | app/components/UserForm.tsx:54-93 | a masked phone of at most 11 digits passes the validator iff it has 11 digits |
| UserFormView.MaskedPhoneIsFixedPoint | app/components/UserForm.tsx:57-91 | a text of the masked pattern holds eleven digits and is what the mask makes of them |
| UserFormView.FilledFields | app/components/UserForm.tsx:123-127 | at most 4; 4 iff every field is filled; 0 iff none is |
| UserFormView.ValidFormIsFull | app/components/UserForm.tsx:122-130 | a valid record fills every field |
| UserFormView.UserFormScreen.constructor | app/components/UserForm.tsx:14-28 | an empty record, no messages, nothing submitting or pending |
| UserFormView.UserFormScreen.ValidateForm | app/components/UserForm.tsx:31-69 | the errors become the expected messages; the result is true iff the record is valid, iff every message is empty |
| UserFormView.UserFormScreen.HandleChange | app/components/UserForm.tsx:71-79 | updates only the named field and clears only that field's message |
| UserFormView.UserFormScreen.HandlePhoneChange | app/components/UserForm.tsx:81-99 | with at most 11 digits, the phone becomes the masked digits and its message clears; with more, nothing changes |
| UserFormView.UserFormScreen.CalculateProgress | app/components/UserForm.tsx:122-130 | 25 × the number of filled fields: a multiple of 25 in [0, 100], 100 iff all four are filled |
| UserFormView.UserFormScreen.HandleSubmit | app/components/UserForm.tsx:101-106 | validates; only a valid record starts the pending submission |
| UserFormView.UserFormScreen.SubmitDelayElapsed | app/components/UserForm.tsx:107-110 | the captured, valid record reaches setUserData and the step becomes results; nothing else in the session changes |
| UserFormView.EmailExamples | app/components/UserForm.tsx:46-52 | "ana@exemplo.com" passes; "a@b" is invalid; blanks are required |
| UserFormView.PhoneExamples | app/components/UserForm.tsx:54-60 | the masked and the bare eleven/ten-digit forms pass; a short mask is invalid |
| UserFormView.FormatPhoneExample | app/components/UserForm.tsx:84-91 | eleven digits yield `(DD) DDDDD-DDDD` |
| QuizData.UserInfo.With | app/components/UserForm.tsx:73 | `{ ...prev, [name]: value }`: the field is set, every other field kept |
| QuizData.QuizQuestions | app/data/quizData.ts:15-116 | `quizQuestions`: ten questions |
| QuizData.WordingOf | app/data/quizData.ts:15-116 | the texts of the question with an id; its two feedback texts differ |
| QuizData.BankWordings | app/data/quizData.ts:15-116 | the wordings in question order, every one with two different feedback texts |
| QuizData.BankWordingsById | app/data/quizData.ts:15-116 | the wording at each position is WordingOf the id of the question there |
| QuizData.BankEntry | app/data/quizData.ts:15-116 | each entry has id = position + 1, four options, an in-range correctAnswer and no time limit |
| QuizData.BankIdsArePositions | app/data/quizData.ts:15-116 | ids are 1..10 in array order, hence distinct |
| QuizData.BankWellFormed | app/data/quizData.ts:15-116 | every question has exactly 4 options and 0 ≤ correctAnswer < 4 |
| QuizData.BankHasNoTimeLimits | app/data/quizData.ts:12-116 | no question sets timeLimit |
| QuizData.QuizQuestionsShape | app/data/quizData.ts:15-116 | the bank has the shape the screens rely on |
| QuizData.ProfessionOptions | app/data/quizData.ts:125-130 | four non-empty options |
| QuizData.ProfessionOptionsDistinct | app/data/quizData.ts:125-130 | four distinct profession options |
| ResultsView.WebhookUrl | app/components/Results.tsx:48 | an unset or empty setting gives the default URL, any other the setting |
| ResultsView.RemoveAll | app/components/Results.tsx:110 | the filter keeps exactly the other values |
| ResultsView.RemoveAllAbsent | app/components/Results.tsx:110 | filtering out an absent value changes nothing |
| ResultsView.RemoveAllAppended | app/components/Results.tsx:108-114 | filtering out a value just appended to a list without it gives the list back |
| ResultsView.RemoveAllDistinct | app/components/Results.tsx:110 | filtering keeps a list free of duplicates |
| ResultsView.Toggled | app/components/Results.tsx:108-114 | the index is in the result iff it was not before; every other index keeps its membership; an absent index is appended |
| ResultsView.ToggleTwiceMembership | app/components/Results.tsx:108-114 | toggling twice restores the membership of every index |
| ResultsView.ToggleTwiceFromCollapsed | app/components/Results.tsx:108-114 | opening then closing a collapsed question gives back the same list |
| ResultsView.ToggledDistinct | app/components/Results.tsx:108-114 | toggling never duplicates an index |
| ResultsView.ResultsScreen.CorrectAnswers | app/components/Results.tsx:77 | at most the number of questions |
| ResultsView.ResultsScreen.WrongAnswers | app/components/Results.tsx:76-78 | total − score: the number of questions not answered correctly |
| ResultsView.ResultsScreen.PercentCorrect | app/components/Results.tsx:79 | the webhook's rounding over ten questions: 10 × score, within [0, 100] |
| ResultsView.ResultsScreen.ResultMessage | app/components/Results.tsx:82-87 | the webhook's buckets, read as 9+, 7–8, 5–6 and 0–4 correct answers |
| ResultsView.ResultsScreen.IsCorrectAt | app/components/Results.tsx:337 | correct iff userAnswers[i] == correctAnswer; a correct answer is never negative |
| ResultsView.ResultsScreen.AnswerText | app/components/Results.tsx:389 | "Sem resposta" for a negative answer, the chosen option text otherwise |
| ResultsView.ResultsScreen.ShowsConfetti | app/components/Results.tsx:173 | confetti iff mounted, not timed out and at least 7 correct (percent ≥ 70) |
| ResultsView.ResultsScreen.constructor | app/components/Results.tsx:26-31 | nothing expanded, confetti on, not sent, not mounted, no POST in flight |
| ResultsView.ResultsScreen.MountEffect | app/components/Results.tsx:32-33 | the screen becomes mounted |
| ResultsView.ResultsScreen.ConfettiTimeout | app/components/Results.tsx:36-38 | the confetti is hidden for good |
| ResultsView.ResultsScreen.ToggleQuestion | app/components/Results.tsx:108-114 | the list becomes Toggled of the old list |
| ResultsView.ResultsScreen.SendEffect | app/components/Results.tsx:44-73 | posts iff userInfo is set and no POST succeeded yet; the payload is built from the session as this render sees it and agrees with the screen's figures; the POST joins those in flight and webhookSent is unchanged |
| ResultsView.ResultsScreen.DeliveryResolved | app/components/Results.tsx:52-68 | one POST in flight resolves and leaves the list; webhookSent latches iff it succeeded or was already set |
| ResultsView.ResultsScreen.SendEffectSingleFlight | app/components/Results.tsx:44-73 | corrected send effect: also no POST while one is in flight, so at most one is |
| ResultsView.DoubleSendBeforeResolve | app/components/Results.tsx:44-73 | entering the results step: two POSTs in flight before either resolves, the first with the total from before the clock update |
| ResultsView.SingleSendBeforeResolve | app/components/Results.tsx:44-73 | the same renders with the corrected effect: one POST in flight |
| Timer.Classify | app/components/Timer.tsx:24-41 | critical iff timeLeft/totalTime ≤ 1/4; warning iff the ratio is in (1/4, 1/2]; normal otherwise |
| Timer.ClassifyMonotone | app/components/Timer.tsx:36-41 | with totalTime fixed, less time left never means a less urgent state |
| Timer.ShouldPulse | app/components/Timer.tsx:44 | pulse iff critical and active |
| Timer.StatusLabel | app/components/Timer.tsx:115 | "ATIVO" iff active, "PAUSADO" otherwise |
| Timer.TwoDigits | app/components/Timer.tsx:69 | two digits whose value is the seconds |
| Timer.FormatTime | app/components/Timer.tsx:66-70 | "m:ss": a numeral, a colon and two digits |
| Timer.FormatTimeMeaning | app/components/Timer.tsx:66-70 | the minutes are `${Math.floor(s / 60)}`, the two digits read s mod 60, and reading the text back gives s |
| Timer.FormatTimeInjective | app/components/Timer.tsx:66-70 | different second counts render differently |
| Timer.FormatTimeExamples | app/components/Timer.tsx:66-70 | 5 → "0:05", 30 → "0:30", 65 → "1:05" |
| Decimal.NatToString | app/components/Timer.tsx:69 | `${n}`: at least one digit, no leading zero, one digit iff n < 10 |
| Decimal.NatToStringRoundTrip | app/components/Timer.tsx:69 | reading the numeral back gives n |
| Decimal.NatToStringInjective | app/components/Timer.tsx:69 | distinct numbers render differently |
| WelcomeView.FormatTimeSeconds | app/components/Welcome.tsx:16-18 | "1 segundo" iff n = 1; otherwise "n segundos" |
| WelcomeView.FormatDefaultTime | app/components/Welcome.tsx:16-18 | the default 30 s renders as "30 segundos" |
| WelcomeView.WelcomeScreen.constructor | app/components/Welcome.tsx:12 | the button starts disarmed |
| WelcomeView.WelcomeScreen.HandleStartQuiz | app/components/Welcome.tsx:20-26 | an armed click sets the step to question and changes nothing else in the session; an unarmed click only arms it; nothing disarms it |

## Left out

- The webhook POST (`sendWebhookData`, app/utils/webhookService.ts:123-143) is network output. Its outcome is the `deliver` parameter of `DeliveryResolved`, and a thrown error is a `false` outcome. Which POST in flight resolves first is the caller's choice.
- webhook-server.js is not part of this model. It is an Express server with filesystem storage.
- `Date.now()` and `new Date().toISOString()` are reads of the clock. They are the `now` and `timestamp` parameters.
- `setInterval` and `setTimeout` are explicit steps, not concurrency. Each has its own method: `Tick`, `FeedbackDelayElapsed`, `SubmitDelayElapsed` and `ConfettiTimeout`. Cancelling a timer on unmount is not modelled.
- `Math.random` in the timeout handler becomes a nondeterministic choice among the wrong options.
- The random background blobs are dropped.
- Floating-point presentation is left out:
  - the formatting and evaluation of the average response time (app/components/Results.tsx:90-105);
  - the progress-ring colours (app/components/Timer.tsx:33, 47-63);
  - the score colour of the form (app/components/UserForm.tsx:133-140).
- `shareResults`, all JSX, framer-motion and the confetti drawing are UI and browser APIs, so they are left out. So are `useScreenSize`, app/layout.tsx, app/page.tsx and app/test.tsx.
- `setUserInfo` is passed out raw (app/context/QuizContext.tsx:189) but no core screen calls it.
- The focus handlers of the form (app/components/UserForm.tsx:113-119) only style the inputs.
- The question text and the two feedback texts of each question are not in the question records. They are in the session's `wordings`, built by `QuizData.WordingOf`, which is keyed by id. The records keep every other field of the source. This keeps the long literals out of the proofs.
- PercentCorrect: computed in exact rational arithmetic; JavaScript's rounding of the float quotient is not modelled. For the bank's ten questions the two agree, since the result is exactly 10 × score.
- AverageResponseTime: an exact real mean, not an IEEE double.
- ResultsScreen.SendEffect and SubmitQuizResults use the public webhook URL (`NEXT_PUBLIC_WEBHOOK_URL`) as an optional parameter. The development-only console logging is left out.
- Session.AnswerQuestion: requires an index within the answers. JavaScript would grow the array for a larger index, but every caller passes currentQuestionIndex, which the session keeps in range.
- PrepareWebhookPayload: requires a non-empty question list. With none, JavaScript divides by zero (NaN); the only caller passes the ten-question bank.
- Timer.Classify: takes non-negative whole seconds, the values the session holds. A totalTime of 0 gives the normal state. In JavaScript the ratio is then Infinity or NaN, and neither compares as at most a threshold.
- UserFormScreen.HandleSubmit: requires that no submission is pending, since the submit button is disabled while one is (app/components/UserForm.tsx:438).
- ResultsScreen.SendEffect: the payload carries the session values of the render in which the effect runs. On entering the results step that render precedes the provider's clock update, so the first POST carries the earlier `totalQuizTime` (`DoubleSendBeforeResolve`). A state update on an unmounted screen is not modelled.
- React batches the state updates of one commit, and a handler sees them only at the next render. The model applies each method's updates at once. The scenario methods order their calls so that no handler reads a value set in the same commit. For that reason `TimeoutCarriesOver` leaves out the index effect, whose new start time the handler cannot see yet.

## Findings

| source | as written | input that shows it | evidently intended | confidence | as-written member | corrected member |
|---|---|---|---|---|---|---|
| app/components/Results.tsx:44-73 | `webhookSent` is set only after the awaited POST succeeds, and `totalQuizTime` is one of the effect's dependencies | a visitor with a contact record reaches the results step: the screen posts with the old total, the provider then stores the new total, and the effect posts again before the first POST resolves | the results are posted once per visit | not executed | ResultsView.DoubleSendBeforeResolve | ResultsView.ResultsScreen.SendEffectSingleFlight |
| app/components/Question.tsx:80-104 | the timeout handler leaves the countdown active at 0, and the next question's expiry check runs before the provider restarts the countdown | a question times out with nothing selected, the feedback appears and the visitor presses Next | the next question gets its full time | not executed | QuestionView.TimeoutCarriesOver | QuestionView.QuestionScreen.HandleTimeUpPausing |
| app/components/Question.tsx:49-54 | a selection is refused only once feedback is shown, which after a timeout happens 500 ms later | a question times out, and within 500 ms the visitor clicks the correct option and confirms | a timed-out question stays wrong | not executed | QuestionView.LateSelectAfterTimeout | QuestionView.QuestionScreen.HandleSelectAnswerLocked |
