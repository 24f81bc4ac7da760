/**
 * The record shapes of the learning application: lessons and their quizzes,
 * the gamification records and the user profile. A field declared optional
 * (`field?: T`) is an `Option<T>`; `None` stands for an absent or undefined
 * property. Numbers that only ever hold whole values are `int`.
 */
module Types {
  import opened Wrappers

  datatype Language = En | Vi

  datatype LessonTheme = Minimal | Cyberpunk | Academic | Playful

  datatype Level = Beginner | Intermediate | Advanced

  datatype MentorPersona = Friendly | Strict | Funny

  datatype WeakArea = Logic | GenAI | Ethics | Foundations

  datatype LeagueTier = Bronze | Silver | Gold | Platinum | Diamond

  /** A calendar date written as an ISO string `YYYY-MM-DD`. */
  type IsoDate = string

  datatype QuizQuestion = QuizQuestion(question: string, options: seq<string>, answerIndex: int)

  datatype Lesson = Lesson(
    id: string,
    title: string,
    content: string,
    duration: string,
    imageUrl: Option<string>,
    quiz: Option<seq<QuizQuestion>>)

  datatype Course = Course(
    id: string,
    title: string,
    description: string,
    icon: string,
    color: string,
    lessons: seq<Lesson>)

  datatype TimetableEntry = TimetableEntry(subject: string, time: string, endTime: string)

  datatype StreakState = StreakState(
    streakCount: int,
    lastActiveDate: IsoDate,
    streakFreezeCount: int,
    longestStreak: int)

  datatype LeagueState = LeagueState(
    tier: LeagueTier,
    weeklyXp: int,
    weekStartDate: IsoDate,
    rank: Option<int>)

  datatype UserProfile = UserProfile(
    name: string,
    email: string,
    grade: string,
    level: Level,
    interests: seq<string>,
    theme: LessonTheme,
    onboarded: bool,
    smartInsights: Option<string>,
    language: Option<Language>,
    coins: Option<int>,
    streak: Option<int>,
    streakState: Option<StreakState>,
    xpTotal: Option<int>,
    xpThisWeek: Option<int>,
    league: Option<LeagueState>,
    weakAreas: Option<map<WeakArea, int>>,
    mentorPersona: Option<MentorPersona>,
    timetable: Option<map<int, seq<TimetableEntry>>>,
    notes: Option<string>)

  /** What the onboarding quiz hands back: `Omit<UserProfile, 'email' | 'onboarded'>` in `App.tsx`. */
  datatype OnboardingAnswers = OnboardingAnswers(
    name: string,
    grade: string,
    level: Level,
    interests: seq<string>,
    theme: LessonTheme,
    smartInsights: Option<string>,
    language: Option<Language>,
    coins: Option<int>,
    streak: Option<int>,
    streakState: Option<StreakState>,
    xpTotal: Option<int>,
    xpThisWeek: Option<int>,
    league: Option<LeagueState>,
    weakAreas: Option<map<WeakArea, int>>,
    mentorPersona: Option<MentorPersona>,
    timetable: Option<map<int, seq<TimetableEntry>>>,
    notes: Option<string>)

  /**
   * The summary of a finished lesson handed to the reward engine. The type is declared by the
   * reward service, which is not part of this model; these are the fields `App.tsx` sets.
   */
  datatype LessonResult = LessonResult(correctCount: int, totalQuestions: int, durationSeconds: int)

  /** What the reward engine reports back for display: the type of `App.tsx`'s `lastRewards` state. */
  datatype RewardOutcome = RewardOutcome(xpGained: int, coinsGained: int, streakDelta: int)

  /** The reward engine's return value: the updated profile and the rewards gained. */
  datatype RewardsApplied = RewardsApplied(user: UserProfile, rewards: RewardOutcome)
}
