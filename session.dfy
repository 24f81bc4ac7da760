/**
 * The state the application component keeps for a signed-in learner and the
 * lesson viewer, and every handler that changes it, as pure functions from
 * the state before to the state after. A `setTimeout` continuation is not run
 * by its handler: the handler schedules a `Timer` carrying what its closure
 * captured, and the timer runs later as a transition of its own. The
 * scheduled timers may fire in any order, so timing plays no part.
 */
module Session {
  import opened Wrappers
  import opened Types
  import opened Profiles

  datatype Feedback = Correct | Wrong

  /**
   * A scheduled continuation of the quiz-answer handler. After a correct
   * answer it captured the lesson, the question index, the user and the
   * completed set of the moment the answer was given.
   */
  datatype Timer =
    | AdvanceOrComplete(lesson: Lesson, index: nat, user: Option<UserProfile>, completed: set<string>)
    | ClearFeedback

  /** The reward engine: its rules are not part of this model. */
  type RewardEngine = (UserProfile, LessonResult) -> RewardsApplied

  datatype AppState = AppState(
    user: Option<UserProfile>,
    language: Language,
    completedLessons: set<string>,
    activeLesson: Lesson,
    quizActive: bool,
    currentQuizIndex: nat,
    quizFeedback: Option<Feedback>,
    selectedAnswer: Option<int>,
    rewardOpen: bool,
    lastRewards: Option<RewardOutcome>,
    pending: seq<Timer>)

  /** The user-side part of the state is as it was. */
  predicate ProgressUnchanged(s: AppState, r: AppState)
  {
    && r.user == s.user
    && r.language == s.language
    && r.completedLessons == s.completedLessons
    && r.rewardOpen == s.rewardOpen
    && r.lastRewards == s.lastRewards
  }

  /** The lesson-viewer part of the state is as it was. */
  predicate QuizUnchanged(s: AppState, r: AppState)
  {
    && r.activeLesson == s.activeLesson
    && r.quizActive == s.quizActive
    && r.currentQuizIndex == s.currentQuizIndex
    && r.quizFeedback == s.quizFeedback
    && r.selectedAnswer == s.selectedAnswer
    && r.pending == s.pending
  }

  function QuestionCount(l: Lesson): nat
  {
    if l.quiz.Some? then |l.quiz.value| else 0
  }

  /** `activeLesson.quiz?.[index]?.answerIndex === idx`: false without a quiz or past its end. */
  function IsCorrect(l: Lesson, index: nat, idx: int): (correct: bool)
    ensures correct ==> index < QuestionCount(l)
  {
    l.quiz.Some? && index < |l.quiz.value| && l.quiz.value[index].answerIndex == idx
  }

  /** The continuation's test: the lesson has a quiz and `index` is not its last question. */
  predicate HasNextQuestion(l: Lesson, index: nat)
  {
    l.quiz.Some? && index < |l.quiz.value| - 1
  }

  /** The question index addresses a question of the lesson (or is 0 when there is none). */
  predicate IndexInRange(l: Lesson, index: nat)
  {
    if QuestionCount(l) == 0 then index == 0 else index < QuestionCount(l)
  }

  /**
   * The result handed to the reward engine: a finished quiz counts as all
   * correct, over the quiz's length (`|| 1`: one when there is no quiz or it
   * is empty), in sixty seconds.
   */
  function LessonResultFor(l: Lesson): (r: LessonResult)
    ensures r.totalQuestions > 0 && r.correctCount == r.totalQuestions
    ensures r.durationSeconds == 60
    ensures QuestionCount(l) > 0 ==> r.totalQuestions == QuestionCount(l)
    ensures QuestionCount(l) == 0 ==> r.totalQuestions == 1
  {
    var n := if l.quiz.Some? && |l.quiz.value| != 0 then |l.quiz.value| else 1;
    LessonResult(correctCount := n, totalQuestions := n, durationSeconds := 60)
  }

  /** The state when the component mounts: nobody signed in, the first lesson active, no quiz. */
  function Initial(storedLanguage: Option<Language>, firstLesson: Lesson): (s: AppState)
    ensures s.user.None? && s.completedLessons == {} && s.activeLesson == firstLesson
    ensures s.language == storedLanguage.GetOr(En)
    ensures !s.quizActive && s.currentQuizIndex == 0 && s.quizFeedback.None? && s.selectedAnswer.None?
    ensures !s.rewardOpen && s.lastRewards.None? && s.pending == []
  {
    AppState(None, storedLanguage.GetOr(En), {}, firstLesson, false, 0, None, None, false, None, [])
  }

  /**
   * Successful sign-in. `existing` is what storage holds for the account and
   * `storedProgress` its saved completed lessons. A known account is restored
   * as stored; an unknown one gets a new profile in the current language.
   */
  function SignedIn(s: AppState, accountName: string, existing: Option<UserProfile>,
                    storedProgress: seq<string>, today: IsoDate): (r: AppState)
    ensures existing.Some? ==> r.user == existing
    ensures existing.Some? ==> r.language == existing.value.language.GetOr(En)
    ensures existing.Some? ==> forall id :: id in r.completedLessons <==> id in storedProgress
    ensures existing.None? ==> r.user == Some(NewUserProfile(accountName, s.language, today))
    ensures existing.None? ==> r.language == s.language && r.completedLessons == s.completedLessons
    ensures r.rewardOpen == s.rewardOpen && r.lastRewards == s.lastRewards
    ensures QuizUnchanged(s, r)
  {
    match existing
    case Some(e) =>
      s.(user := existing, language := e.language.GetOr(En),
         completedLessons := set id | id in storedProgress)
    case None =>
      s.(user := Some(NewUserProfile(accountName, s.language, today)))
  }

  /**
   * Onboarding finished with `answers`; `insights` is the mentor text the
   * insight service produced for the hydrated profile. Without a user
   * nothing happens.
   */
  function Onboarded(s: AppState, answers: OnboardingAnswers, today: IsoDate, insights: string): (r: AppState)
    ensures s.user.None? ==> r == s
    ensures s.user.Some? ==> r.user.Some?
    ensures s.user.Some? ==> r.user.value.onboarded && StreakMirrored(r.user.value)
    ensures s.user.Some? ==> r.user.value.email == s.user.value.email
    ensures s.user.Some? ==> r.user == Some(Hydrate(s.user.value, answers, today).(smartInsights := Some(insights)))
    ensures r.language == s.language && r.completedLessons == s.completedLessons
    ensures r.rewardOpen == s.rewardOpen && r.lastRewards == s.lastRewards
    ensures QuizUnchanged(s, r)
  {
    match s.user
    case None => s
    case Some(u) =>
      s.(user := Some(Hydrate(u, answers, today).(smartInsights := Some(insights))))
  }

  /** A lesson picked on the learning path becomes active, with its quiz closed at question 0. */
  function LessonOpened(s: AppState, lesson: Lesson): (r: AppState)
    ensures r.activeLesson == lesson && !r.quizActive && r.currentQuizIndex == 0
    ensures r.quizFeedback == s.quizFeedback && r.selectedAnswer == s.selectedAnswer
    ensures r.pending == s.pending
    ensures ProgressUnchanged(s, r)
  {
    s.(activeLesson := lesson, quizActive := false, currentQuizIndex := 0)
  }

  /**
   * "Take the check" as the handler is written: the quiz opens at question
   * 0 with no feedback and no selection; timers already scheduled stay
   * scheduled.
   */
  function QuizStartedAsWritten(s: AppState): (r: AppState)
    ensures r.quizActive && r.currentQuizIndex == 0 && r.quizFeedback.None? && r.selectedAnswer.None?
    ensures r.activeLesson == s.activeLesson && r.pending == s.pending
    ensures ProgressUnchanged(s, r)
  {
    s.(quizActive := true, quizFeedback := None, selectedAnswer := None, currentQuizIndex := 0)
  }

  /**
   * "Take the check", corrected: as written, and the continuations of
   * earlier answers are cancelled, so none of them can act on the new quiz.
   */
  function QuizStarted(s: AppState): (r: AppState)
    ensures r.quizActive && r.currentQuizIndex == 0 && r.quizFeedback.None? && r.selectedAnswer.None?
    ensures r.activeLesson == s.activeLesson && r.pending == []
    ensures ProgressUnchanged(s, r)
  {
    QuizStartedAsWritten(s).(pending := [])
  }

  /** "Back to lesson" closes the quiz and changes nothing else. */
  function QuizClosed(s: AppState): (r: AppState)
    ensures !r.quizActive
    ensures r.(quizActive := s.quizActive) == s
  {
    s.(quizActive := false)
  }

  /**
   * An answer to the current question. While feedback is showing it is
   * ignored. Otherwise it is selected, judged, and a continuation is
   * scheduled: after a correct answer one that advances or completes the
   * lesson, after a wrong one one that clears the feedback. The answer
   * itself never moves the question index.
   */
  function Answered(s: AppState, idx: int): (r: AppState)
    ensures s.quizFeedback.Some? ==> r == s
    ensures s.quizFeedback.None? ==> r.selectedAnswer == Some(idx)
    ensures s.quizFeedback.None? ==>
      (r.quizFeedback == Some(Correct) <==> IsCorrect(s.activeLesson, s.currentQuizIndex, idx))
    ensures s.quizFeedback.None? ==>
      (r.quizFeedback == Some(Wrong) <==> !IsCorrect(s.activeLesson, s.currentQuizIndex, idx))
    ensures s.quizFeedback.None? && IsCorrect(s.activeLesson, s.currentQuizIndex, idx) ==>
      r.pending == s.pending + [AdvanceOrComplete(s.activeLesson, s.currentQuizIndex, s.user, s.completedLessons)]
    ensures s.quizFeedback.None? && !IsCorrect(s.activeLesson, s.currentQuizIndex, idx) ==>
      r.pending == s.pending + [ClearFeedback]
    ensures r.currentQuizIndex == s.currentQuizIndex
    ensures r.activeLesson == s.activeLesson && r.quizActive == s.quizActive
    ensures ProgressUnchanged(s, r)
  {
    if s.quizFeedback.Some? then s
    else
      var correct := IsCorrect(s.activeLesson, s.currentQuizIndex, idx);
      s.(selectedAnswer := Some(idx),
         quizFeedback := Some(if correct then Correct else Wrong),
         pending := s.pending +
           [if correct then AdvanceOrComplete(s.activeLesson, s.currentQuizIndex, s.user, s.completedLessons)
            else ClearFeedback])
  }

  /**
   * Lesson completion, run with the user, the completed set and the lesson
   * its closure captured. Without a user nothing happens. Otherwise the
   * lesson joins the completed set, which loses nothing, the reward engine
   * gets an all-correct result, and its profile and rewards are shown.
   */
  function LessonCompleted(s: AppState, user: Option<UserProfile>, completed: set<string>,
                           lesson: Lesson, engine: RewardEngine): (r: AppState)
    ensures user.None? ==> r == s
    ensures user.Some? ==> r.completedLessons == completed + {lesson.id}
    ensures user.Some? ==> lesson.id in r.completedLessons && completed <= r.completedLessons
    ensures user.Some? ==> r.user == Some(engine(user.value, LessonResultFor(lesson)).user)
    ensures user.Some? ==> r.rewardOpen && r.lastRewards == Some(engine(user.value, LessonResultFor(lesson)).rewards)
    ensures r.language == s.language
    ensures QuizUnchanged(s, r)
  {
    match user
    case None => s
    case Some(u) =>
      var applied := engine(u, LessonResultFor(lesson));
      s.(completedLessons := completed + {lesson.id},
         user := Some(applied.user),
         lastRewards := Some(applied.rewards),
         rewardOpen := true)
  }

  /** Closing the reward display hides it and forgets the rewards shown; nothing else changes. */
  function RewardClosed(s: AppState): (r: AppState)
    ensures !r.rewardOpen && r.lastRewards.None?
    ensures r.(rewardOpen := s.rewardOpen, lastRewards := s.lastRewards) == s
  {
    s.(rewardOpen := false, lastRewards := None)
  }

  /**
   * The navigation bar's logout button: the signed-in profile is dropped and nothing else
   * changes. The lesson viewer, the completed set and any scheduled continuation stay as they are.
   */
  function LoggedOut(s: AppState): (r: AppState)
    ensures r.user.None?
    ensures r.(user := s.user) == s
  {
    s.(user := None)
  }

  /** The timers left once the `k`-th one has run. */
  function Without(pending: seq<Timer>, k: nat): (rest: seq<Timer>)
    requires k < |pending|
    ensures |rest| == |pending| - 1
    ensures forall j :: 0 <= j < k ==> rest[j] == pending[j]
    ensures forall j :: k <= j < |rest| ==> rest[j] == pending[j + 1]
  {
    pending[..k] + pending[k + 1..]
  }

  /**
   * The `k`-th scheduled continuation runs. Clearing resets feedback and
   * selection only. Advancing moves to the next question, counting from
   * the index as it is now, when the captured lesson has a question after
   * the captured index; otherwise it completes the captured lesson.
   */
  function TimerFired(s: AppState, k: nat, engine: RewardEngine): (r: AppState)
    requires k < |s.pending|
    ensures r.pending == Without(s.pending, k)
    ensures r.activeLesson == s.activeLesson && r.quizActive == s.quizActive && r.language == s.language
    ensures s.pending[k].ClearFeedback? ==>
      && r.quizFeedback.None? && r.selectedAnswer.None?
      && r.currentQuizIndex == s.currentQuizIndex && ProgressUnchanged(s, r)
    ensures s.pending[k].AdvanceOrComplete? && HasNextQuestion(s.pending[k].lesson, s.pending[k].index) ==>
      && r.currentQuizIndex == s.currentQuizIndex + 1
      && r.quizFeedback.None? && r.selectedAnswer.None? && ProgressUnchanged(s, r)
    ensures s.pending[k].AdvanceOrComplete? && !HasNextQuestion(s.pending[k].lesson, s.pending[k].index) ==>
      && r.currentQuizIndex == s.currentQuizIndex
      && r.quizFeedback == s.quizFeedback && r.selectedAnswer == s.selectedAnswer
      && r == LessonCompleted(s.(pending := Without(s.pending, k)), s.pending[k].user,
                              s.pending[k].completed, s.pending[k].lesson, engine)
  {
    var rest := s.(pending := Without(s.pending, k));
    match s.pending[k]
    case ClearFeedback =>
      rest.(quizFeedback := None, selectedAnswer := None)
    case AdvanceOrComplete(lesson, index, user, completed) =>
      if HasNextQuestion(lesson, index) then
        rest.(currentQuizIndex := s.currentQuizIndex + 1, quizFeedback := None, selectedAnswer := None)
      else
        LessonCompleted(rest, user, completed, lesson, engine)
  }

  /**
   * The modelled handlers and continuations, with what the environment supplies. `Step` runs
   * each event with the corrected quiz start (`QuizStarted`, not `QuizStartedAsWritten`).
   */
  datatype Event =
    | AuthSuccess(accountName: string, existing: Option<UserProfile>, storedProgress: seq<string>, today: IsoDate)
    | OnboardingComplete(answers: OnboardingAnswers, today: IsoDate, insights: string)
    | LessonClick(lesson: Lesson)
    | TakeCheck
    | BackToLesson
    | QuizAnswer(idx: int)
    | TimeoutFires(k: nat)
    | RewardDismissed
    | Logout

  function Step(s: AppState, e: Event, engine: RewardEngine): AppState
  {
    match e
    case AuthSuccess(accountName, existing, storedProgress, today) =>
      SignedIn(s, accountName, existing, storedProgress, today)
    case OnboardingComplete(answers, today, insights) => Onboarded(s, answers, today, insights)
    case LessonClick(lesson) => LessonOpened(s, lesson)
    case TakeCheck => QuizStarted(s)
    case BackToLesson => QuizClosed(s)
    case QuizAnswer(idx) => Answered(s, idx)
    case TimeoutFires(k) => if k < |s.pending| then TimerFired(s, k, engine) else s
    case RewardDismissed => RewardClosed(s)
    case Logout => LoggedOut(s)
  }

  function Run(s: AppState, events: seq<Event>, engine: RewardEngine): AppState
    decreases |events|
  {
    if events == [] then s else Run(Step(s, events[0], engine), events[1..], engine)
  }

  /** A scheduled timer agrees with the feedback on show and, while the quiz is open, with the question. */
  predicate TimerMatches(s: AppState, t: Timer)
  {
    match t
    case ClearFeedback => s.quizFeedback == Some(Wrong)
    case AdvanceOrComplete(lesson, index, _, _) =>
      && s.quizFeedback == Some(Correct)
      && (s.quizActive ==> lesson == s.activeLesson && index == s.currentQuizIndex)
  }

  /**
   * The invariant of the lesson viewer: at most one continuation is
   * scheduled, it belongs to the answer whose feedback is showing, and an
   * open quiz always shows one of its own questions.
   */
  predicate Inv(s: AppState)
  {
    && |s.pending| <= 1
    && (forall k :: 0 <= k < |s.pending| ==> TimerMatches(s, s.pending[k]))
    && (s.quizActive ==> IndexInRange(s.activeLesson, s.currentQuizIndex))
  }

  lemma InitialInv(storedLanguage: Option<Language>, firstLesson: Lesson)
    ensures Inv(Initial(storedLanguage, firstLesson))
  {
  }

  /** While a continuation is scheduled, the feedback of its answer is showing. */
  lemma ScheduledTimerShowsFeedback(s: AppState)
    requires Inv(s)
    ensures s.pending != [] ==> s.quizFeedback.Some?
  {
    if s.pending != [] {
      assert TimerMatches(s, s.pending[0]);
    }
  }

  lemma StepPreservesInv(s: AppState, e: Event, engine: RewardEngine)
    requires Inv(s)
    ensures Inv(Step(s, e, engine))
  {
    match e
    case QuizAnswer(idx) =>
      ScheduledTimerShowsFeedback(s);
    case TimeoutFires(k) =>
      if k < |s.pending| {
        var r := TimerFired(s, k, engine);
        assert r.pending == [];
        if s.quizActive && s.pending[k].AdvanceOrComplete? {
          assert TimerMatches(s, s.pending[k]);
        }
      }
    case _ =>
  }

  lemma {:induction false} RunPreservesInv(s: AppState, events: seq<Event>, engine: RewardEngine)
    requires Inv(s)
    ensures Inv(Run(s, events, engine))
    decreases |events|
  {
    if events != [] {
      StepPreservesInv(s, events[0], engine);
      RunPreservesInv(Step(s, events[0], engine), events[1..], engine);
    }
  }

  /**
   * Along every sequence of events from mount, an open quiz shows one of
   * its own questions: the index stays within [0, quiz length).
   */
  lemma ReachableQuizIndexInRange(storedLanguage: Option<Language>, firstLesson: Lesson,
                                  events: seq<Event>, engine: RewardEngine)
    ensures var r := Run(Initial(storedLanguage, firstLesson), events, engine);
      r.quizActive ==> IndexInRange(r.activeLesson, r.currentQuizIndex)
  {
    InitialInv(storedLanguage, firstLesson);
    RunPreservesInv(Initial(storedLanguage, firstLesson), events, engine);
  }

  /** A wrong answer (so any answer on a lesson without a quiz) and its timer leave the index where it was. */
  lemma WrongAnswerNeverAdvances(s: AppState, idx: int, engine: RewardEngine)
    requires s.quizFeedback.None?
    requires !IsCorrect(s.activeLesson, s.currentQuizIndex, idx)
    ensures var r := TimerFired(Answered(s, idx), |s.pending|, engine);
      && r.currentQuizIndex == s.currentQuizIndex
      && r.quizFeedback.None? && r.selectedAnswer.None?
      && r.pending == s.pending && r.activeLesson == s.activeLesson
      && ProgressUnchanged(s, r)
  {
  }

  /** A correct answer to a question that is not the last, then its timer: exactly one question on. */
  lemma CorrectAnswerAdvancesByOne(s: AppState, idx: int, engine: RewardEngine)
    requires s.quizFeedback.None?
    requires IsCorrect(s.activeLesson, s.currentQuizIndex, idx)
    requires HasNextQuestion(s.activeLesson, s.currentQuizIndex)
    ensures var r := TimerFired(Answered(s, idx), |s.pending|, engine);
      && r.currentQuizIndex == s.currentQuizIndex + 1
      && IndexInRange(r.activeLesson, r.currentQuizIndex)
      && r.quizFeedback.None? && r.selectedAnswer.None?
      && r.pending == s.pending && r.activeLesson == s.activeLesson
      && ProgressUnchanged(s, r)
  {
  }

  /**
   * A correct answer to the last question, then its timer: the lesson is
   * completed for the signed-in user, the completed set gains its id and
   * loses nothing, and the index stays put. Without a user nothing is recorded.
   */
  lemma CorrectLastAnswerCompletesLesson(s: AppState, idx: int, engine: RewardEngine)
    requires s.quizFeedback.None?
    requires IsCorrect(s.activeLesson, s.currentQuizIndex, idx)
    requires !HasNextQuestion(s.activeLesson, s.currentQuizIndex)
    ensures var r := TimerFired(Answered(s, idx), |s.pending|, engine);
      && r.currentQuizIndex == s.currentQuizIndex
      && r.pending == s.pending
      && (s.user.None? ==> r.completedLessons == s.completedLessons && r.user == s.user)
      && (s.user.Some? ==>
            && r.completedLessons == s.completedLessons + {s.activeLesson.id}
            && r.user == Some(engine(s.user.value, LessonResultFor(s.activeLesson)).user)
            && r.rewardOpen)
  {
  }

  /**
   * Logging out while the last question's completion is still scheduled does not
   * leave `user` empty: the continuation carries the profile it captured when the
   * answer was given, so it records the lesson, puts that profile, as rewarded,
   * back into `user` and sets `rewardOpen`. The view (landing after logout) is not
   * part of the state modelled here.
   */
  lemma LogoutBeforeCompletionRestoresUser(s: AppState, idx: int, engine: RewardEngine)
    requires s.quizFeedback.None? && s.user.Some?
    requires IsCorrect(s.activeLesson, s.currentQuizIndex, idx)
    requires !HasNextQuestion(s.activeLesson, s.currentQuizIndex)
    ensures var out := LoggedOut(Answered(s, idx));
      var r := TimerFired(out, |s.pending|, engine);
      && out.user.None?
      && r.user == Some(engine(s.user.value, LessonResultFor(s.activeLesson)).user)
      && r.completedLessons == s.completedLessons + {s.activeLesson.id}
      && r.rewardOpen
  {
  }

  /**
   * The as-written quiz start lets an earlier continuation act on the new
   * quiz. On a two-question quiz: answer the first question correctly,
   * go back to the lesson and take the check again before the feedback
   * delay ends, answer the first question correctly again, and let both
   * timers run. The open quiz then stands at index 2, past its last question.
   */
  lemma RestartDuringDelayOverrunsQuiz(engine: RewardEngine)
    ensures
      var q := QuizQuestion("q", ["a", "b"], 0);
      var two := Lesson("two", "", "", "", None, Some([q, q]));
      var s1 := QuizStartedAsWritten(Initial(None, two));
      var s2 := QuizClosed(Answered(s1, 0));
      var s3 := QuizStartedAsWritten(s2);
      var s4 := Answered(s3, 0);
      var s5 := TimerFired(s4, 0, engine);
      var s6 := TimerFired(s5, 0, engine);
      && Inv(s2) && !Inv(s3)
      && s6.quizActive && s6.currentQuizIndex == 2 == QuestionCount(two)
      && !IndexInRange(s6.activeLesson, s6.currentQuizIndex)
  {
  }
}
