/**
 * Profile construction for the learning application: the profile a first
 * sign-in creates, and the hydration step that turns a possibly partial
 * profile into a fully populated one when onboarding finishes.
 */
module Profiles {
  import opened Wrappers
  import opened Types

  /** Seed values of a new account and the defaults hydration falls back to. */
  const StartingCoins := 100
  const StartingStreak := 1
  const StartingXp := 0

  /** The legacy `streak` field mirrors the streak record's count. */
  predicate StreakMirrored(u: UserProfile)
  {
    u.streakState.Some? && u.streak == Some(u.streakState.value.streakCount)
  }

  /** Every gamification field is present. */
  predicate FullyPopulated(u: UserProfile)
  {
    && u.coins.Some?
    && u.streak.Some?
    && u.streakState.Some?
    && u.xpTotal.Some?
    && u.xpThisWeek.Some?
    && u.mentorPersona.Some?
  }

  predicate StreakSound(s: StreakState)
  {
    0 <= s.streakCount <= s.longestStreak && 0 <= s.streakFreezeCount
  }

  /** The counters that are present are in range. */
  predicate SoundWherePresent(u: UserProfile)
  {
    && (u.coins.Some? ==> u.coins.value >= 0)
    && (u.streak.Some? ==> u.streak.value >= 0)
    && (u.streakState.Some? ==> StreakSound(u.streakState.value))
    && (u.xpTotal.Some? ==> u.xpTotal.value >= 0)
    && (u.xpThisWeek.Some? ==> u.xpThisWeek.value >= 0)
  }

  /** The gamification part of a profile, the part hydration must not lose. */
  datatype Gamification = Gamification(
    coins: Option<int>,
    streak: Option<int>,
    streakState: Option<StreakState>,
    xpTotal: Option<int>,
    xpThisWeek: Option<int>,
    mentorPersona: Option<MentorPersona>)

  function GamificationOf(u: UserProfile): Gamification
  {
    Gamification(u.coins, u.streak, u.streakState, u.xpTotal, u.xpThisWeek, u.mentorPersona)
  }

  /** Object spread of one optional key: `{...base, ...over}` keeps `over` when it is present. */
  function Spread<T>(over: Option<T>, base: Option<T>): Option<T>
  {
    if over.Some? then over else base
  }

  /**
   * The profile created on the first sign-in of an unknown account: named
   * after the account, not yet onboarded, seeded with 100 coins, a streak of
   * one day anchored at `today`, no experience and the friendly mentor.
   */
  function NewUserProfile(accountName: string, language: Language, today: IsoDate): (r: UserProfile)
    ensures r.email == accountName && r.name == accountName
    ensures !r.onboarded
    ensures r.language == Some(language)
    ensures r.coins == Some(StartingCoins)
    ensures r.streakState == Some(StreakState(StartingStreak, today, 0, StartingStreak))
    ensures StreakMirrored(r)
    ensures r.xpTotal == Some(StartingXp) && r.xpThisWeek == Some(StartingXp)
    ensures r.mentorPersona == Some(Friendly)
    ensures r.grade == "" && r.level == Beginner && r.interests == [] && r.theme == Minimal
    ensures r.smartInsights.None? && r.league.None? && r.weakAreas.None?
    ensures r.timetable.None? && r.notes.None?
    ensures FullyPopulated(r) && SoundWherePresent(r)
  {
    UserProfile(
      name := accountName,
      email := accountName,
      grade := "",
      level := Beginner,
      interests := [],
      theme := Minimal,
      onboarded := false,
      smartInsights := None,
      language := Some(language),
      coins := Some(100),
      streak := Some(1),
      streakState := Some(StreakState(
        streakCount := 1,
        lastActiveDate := today,
        streakFreezeCount := 0,
        longestStreak := 1)),
      xpTotal := Some(0),
      xpThisWeek := Some(0),
      league := None,
      weakAreas := None,
      mentorPersona := Some(Friendly),
      timetable := None,
      notes := None)
  }

  /** The legacy count a profile stands for: `streak`, defaulting to one day. */
  function LegacyStreak(u: UserProfile): int
  {
    u.streak.GetOr(StartingStreak)
  }

  /**
   * Onboarding's hydration: the answers overwrite the profile's own fields,
   * the account's email survives, the profile becomes onboarded, and every
   * gamification field is taken from the PRIOR profile (never from the
   * answers), with a default where it was absent. A missing streak record is
   * synthesised from the legacy `streak`, anchored at `today`.
   */
  function Hydrate(u: UserProfile, answers: OnboardingAnswers, today: IsoDate): (r: UserProfile)
    ensures r.onboarded && r.email == u.email
    ensures FullyPopulated(r) && StreakMirrored(r)
    ensures u.streakState.Some? ==> r.streakState == u.streakState
    ensures u.streakState.None? ==>
      r.streakState == Some(StreakState(LegacyStreak(u), today, 0, LegacyStreak(u)))
    ensures u.coins.Some? ==> r.coins == u.coins
    ensures u.coins.None? ==> r.coins == Some(StartingCoins)
    ensures u.xpTotal.Some? ==> r.xpTotal == u.xpTotal
    ensures u.xpTotal.None? ==> r.xpTotal == Some(StartingXp)
    ensures u.xpThisWeek.Some? ==> r.xpThisWeek == u.xpThisWeek
    ensures u.xpThisWeek.None? ==> r.xpThisWeek == Some(StartingXp)
    ensures u.mentorPersona.Some? ==> r.mentorPersona == u.mentorPersona
    ensures u.mentorPersona.None? ==> r.mentorPersona == Some(Friendly)
    ensures r.name == answers.name && r.grade == answers.grade && r.level == answers.level
    ensures r.interests == answers.interests && r.theme == answers.theme
    ensures r.language == Spread(answers.language, u.language)
    ensures r.smartInsights == Spread(answers.smartInsights, u.smartInsights)
    ensures r.league == Spread(answers.league, u.league)
    ensures r.weakAreas == Spread(answers.weakAreas, u.weakAreas)
    ensures r.timetable == Spread(answers.timetable, u.timetable)
    ensures r.notes == Spread(answers.notes, u.notes)
  {
    UserProfile(
      name := answers.name,
      email := u.email,
      grade := answers.grade,
      level := answers.level,
      interests := answers.interests,
      theme := answers.theme,
      onboarded := true,
      smartInsights := Spread(answers.smartInsights, u.smartInsights),
      language := Spread(answers.language, u.language),
      coins := Some(u.coins.GetOr(StartingCoins)),
      streak := Some(if u.streakState.Some? then u.streakState.value.streakCount else LegacyStreak(u)),
      streakState := Some(u.streakState.GetOr(StreakState(
        streakCount := LegacyStreak(u),
        lastActiveDate := today,
        streakFreezeCount := 0,
        longestStreak := LegacyStreak(u)))),
      xpTotal := Some(u.xpTotal.GetOr(StartingXp)),
      xpThisWeek := Some(u.xpThisWeek.GetOr(StartingXp)),
      league := Spread(answers.league, u.league),
      weakAreas := Spread(answers.weakAreas, u.weakAreas),
      mentorPersona := Some(u.mentorPersona.GetOr(Friendly)),
      timetable := Spread(answers.timetable, u.timetable),
      notes := Spread(answers.notes, u.notes))
  }

  /** The gamification fields the answers carry are ignored: only the prior profile matters. */
  lemma HydrateIgnoresAnswerGamification(u: UserProfile, a1: OnboardingAnswers, a2: OnboardingAnswers, today: IsoDate)
    ensures GamificationOf(Hydrate(u, a1, today)) == GamificationOf(Hydrate(u, a2, today))
  {
  }

  /**
   * Hydration leaves the gamification part of a profile exactly as it was
   * if and only if that part was already fully populated and mirrored.
   */
  lemma HydrateFixesExactlyPopulated(u: UserProfile, answers: OnboardingAnswers, today: IsoDate)
    ensures GamificationOf(Hydrate(u, answers, today)) == GamificationOf(u)
        <==> FullyPopulated(u) && StreakMirrored(u)
  {
  }

  /** Hydrating twice (a second onboarding, on any day) changes no gamification field. */
  lemma HydrateIdempotentOnGamification(u: UserProfile, a1: OnboardingAnswers, a2: OnboardingAnswers,
                                        day1: IsoDate, day2: IsoDate)
    ensures var once := Hydrate(u, a1, day1);
      GamificationOf(Hydrate(once, a2, day2)) == GamificationOf(once)
  {
  }

  /** Hydration keeps the counters in range: none negative, longest streak at least the count. */
  lemma HydrateKeepsCountersSound(u: UserProfile, answers: OnboardingAnswers, today: IsoDate)
    requires SoundWherePresent(u)
    ensures SoundWherePresent(Hydrate(u, answers, today))
  {
  }

  /** Onboarding a freshly signed-up user keeps every seeded gamification value and its date. */
  lemma OnboardingKeepsNewUserSeed(accountName: string, language: Language, signUpDay: IsoDate,
                                   answers: OnboardingAnswers, today: IsoDate)
    ensures var seeded := NewUserProfile(accountName, language, signUpDay);
      GamificationOf(Hydrate(seeded, answers, today)) == GamificationOf(seeded)
  {
  }
}
