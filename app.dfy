/**
 * The application component's state as an object whose handlers update its
 * fields in place. Each handler's new state is the corresponding transition
 * of `Session` applied to the old state, and every handler keeps the lesson
 * viewer's invariant `Session.Inv`.
 */
module AppComponent {
  import opened Wrappers
  import opened Types
  import opened Profiles
  import opened Session
  import Courses

  class App {
    /** The reward engine the component calls on lesson completion. */
    const applyLessonRewards: RewardEngine

    var user: Option<UserProfile>
    var language: Language
    var completedLessons: set<string>
    var activeLesson: Lesson
    var quizActive: bool
    var currentQuizIndex: nat
    var quizFeedback: Option<Feedback>
    var selectedAnswer: Option<int>
    var rewardOpen: bool
    var lastRewards: Option<RewardOutcome>
    /** The `setTimeout` continuations scheduled and not yet run. */
    var pending: seq<Timer>

    function State(): AppState
      reads this
    {
      AppState(user, language, completedLessons, activeLesson, quizActive, currentQuizIndex,
               quizFeedback, selectedAnswer, rewardOpen, lastRewards, pending)
    }

    ghost predicate Valid()
      reads this
    {
      Inv(State())
    }

    /** Mounting: `storedLanguage` is the language kept in browser storage, if any. */
    constructor (engine: RewardEngine, storedLanguage: Option<Language>)
      ensures applyLessonRewards == engine
      ensures State() == Initial(storedLanguage, Courses.FirstLesson())
      ensures Valid()
    {
      applyLessonRewards := engine;
      user := None;
      language := storedLanguage.GetOr(En);
      completedLessons := {};
      activeLesson := Courses.FirstLesson();
      quizActive := false;
      currentQuizIndex := 0;
      quizFeedback := None;
      selectedAnswer := None;
      rewardOpen := false;
      lastRewards := None;
      pending := [];
      new;
      InitialInv(storedLanguage, Courses.FirstLesson());
    }

    method HandleAuthSuccess(accountName: string, existing: Option<UserProfile>,
                             storedProgress: seq<string>, today: IsoDate)
      requires Valid()
      modifies this
      ensures Valid()
      ensures State() == SignedIn(old(State()), accountName, existing, storedProgress, today)
    {
      ghost var s := State();
      match existing {
        case Some(e) =>
          user := existing;
          language := e.language.GetOr(En);
          completedLessons := set id | id in storedProgress;
        case None =>
          user := Some(NewUserProfile(accountName, language, today));
      }
      StepPreservesInv(s, AuthSuccess(accountName, existing, storedProgress, today), applyLessonRewards);
    }

    method HandleOnboardingComplete(answers: OnboardingAnswers, today: IsoDate, insights: string)
      requires Valid()
      modifies this
      ensures Valid()
      ensures State() == Onboarded(old(State()), answers, today, insights)
    {
      ghost var s := State();
      if user.Some? {
        var updated := Hydrate(user.value, answers, today);
        updated := updated.(smartInsights := Some(insights));
        user := Some(updated);
      }
      StepPreservesInv(s, OnboardingComplete(answers, today, insights), applyLessonRewards);
    }

    method OpenLesson(lesson: Lesson)
      requires Valid()
      modifies this
      ensures Valid()
      ensures State() == LessonOpened(old(State()), lesson)
    {
      ghost var s := State();
      activeLesson := lesson;
      quizActive := false;
      currentQuizIndex := 0;
      StepPreservesInv(s, LessonClick(lesson), applyLessonRewards);
    }

    /** "Take the check", with the scheduled continuations cancelled. */
    method TakeCheck()
      requires Valid()
      modifies this
      ensures Valid()
      ensures State() == QuizStarted(old(State()))
    {
      ghost var s := State();
      quizActive := true;
      quizFeedback := None;
      selectedAnswer := None;
      currentQuizIndex := 0;
      pending := [];
      StepPreservesInv(s, Event.TakeCheck, applyLessonRewards);
    }

    method BackToLesson()
      requires Valid()
      modifies this
      ensures Valid()
      ensures State() == QuizClosed(old(State()))
    {
      ghost var s := State();
      quizActive := false;
      StepPreservesInv(s, Event.BackToLesson, applyLessonRewards);
    }

    method HandleQuizAnswer(idx: int)
      requires Valid()
      modifies this
      ensures Valid()
      ensures State() == Answered(old(State()), idx)
    {
      ghost var s := State();
      if quizFeedback.Some? {
        return;
      }
      selectedAnswer := Some(idx);
      var correct := IsCorrect(activeLesson, currentQuizIndex, idx);
      quizFeedback := Some(if correct then Correct else Wrong);
      if correct {
        pending := pending + [AdvanceOrComplete(activeLesson, currentQuizIndex, user, completedLessons)];
      } else {
        pending := pending + [ClearFeedback];
      }
      StepPreservesInv(s, QuizAnswer(idx), applyLessonRewards);
    }

    /** The reward display's close button. */
    method CloseReward()
      requires Valid()
      modifies this
      ensures Valid()
      ensures State() == RewardClosed(old(State()))
    {
      ghost var s := State();
      rewardOpen := false;
      lastRewards := None;
      StepPreservesInv(s, RewardDismissed, applyLessonRewards);
    }

    /** The navigation bar's logout button. */
    method Logout()
      requires Valid()
      modifies this
      ensures Valid()
      ensures State() == LoggedOut(old(State()))
    {
      ghost var s := State();
      user := None;
      StepPreservesInv(s, Event.Logout, applyLessonRewards);
    }

    /** The `k`-th scheduled continuation runs. */
    method FireTimeout(k: nat)
      requires Valid()
      requires k < |pending|
      modifies this
      ensures Valid()
      ensures State() == TimerFired(old(State()), k, applyLessonRewards)
    {
      ghost var s := State();
      var t := pending[k];
      pending := pending[..k] + pending[k + 1..];
      match t {
        case ClearFeedback =>
          quizFeedback := None;
          selectedAnswer := None;
        case AdvanceOrComplete(lesson, index, capturedUser, capturedCompleted) =>
          if HasNextQuestion(lesson, index) {
            currentQuizIndex := currentQuizIndex + 1;
            quizFeedback := None;
            selectedAnswer := None;
          } else {
            CompleteLesson(capturedUser, capturedCompleted, lesson);
          }
      }
      StepPreservesInv(s, TimeoutFires(k), applyLessonRewards);
    }

    /**
     * Lesson completion with the user, completed set and lesson its closure
     * captured. Internal to `FireTimeout`, which calls it after removing the
     * fired timer, in a state where `Valid()` need not hold; `FireTimeout`
     * re-establishes it.
     */
    method CompleteLesson(capturedUser: Option<UserProfile>, capturedCompleted: set<string>, lesson: Lesson)
      modifies this
      ensures State() == LessonCompleted(old(State()), capturedUser, capturedCompleted, lesson, applyLessonRewards)
    {
      if capturedUser.None? {
        return;
      }
      completedLessons := capturedCompleted + {lesson.id};
      var result := LessonResultFor(lesson);
      var applied := applyLessonRewards(capturedUser.value, result);
      user := Some(applied.user);
      lastRewards := Some(applied.rewards);
      rewardOpen := true;
    }
  }
}
