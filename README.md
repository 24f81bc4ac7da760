# Smarty AI Academy — profile hydration and lesson-viewer state machine

This project models the logic in the application component `App.tsx` of the Smarty
learning web application:

- **New-user profile.** Signing in with an unknown account creates a profile with fixed
  gamification seed values: 100 coins, a one-day streak anchored today, no experience points
  and the friendly mentor persona.
- **Hydration.** When onboarding finishes, the possibly partial profile becomes a fully
  populated one. The onboarding answers overwrite the personal fields. Every gamification
  field comes from the prior profile, with a default where it was absent. The legacy `streak`
  always mirrors `streakState.streakCount`.
- **Lesson-viewer state machine.** Its state is `quizActive`, `currentQuizIndex`,
  `quizFeedback` and `selectedAnswer`. It is driven by:
  - opening a lesson;
  - "take the check", which resets the quiz;
  - "back to lesson";
  - the quiz-answer handler;
  - the continuations that handler schedules with `setTimeout`;
  - logging out, which drops the signed-in profile.
- **Lesson completion.** The lesson id is added to the completed set, and a `LessonResult`
  is built and handed to the reward engine `applyLessonRewards`.

## Structure

- `wrappers.dfy` (`Wrappers`): `Option`. It stands for every optional (`?:`) property.
  `GetOr` is the `??` operator.
- `types.dfy` (`Types`): the record shapes of `types.ts` (`Lesson`, `QuizQuestion`, `Course`,
  `StreakState`, `LeagueState`, `UserProfile`), plus three shapes declared elsewhere:
  - the onboarding answers, `Omit<UserProfile, 'email' | 'onboarded'>` (App.tsx:162);
  - `LessonResult`, which `App.tsx` imports from `services/progressService` (App.tsx:17). That
    service is not part of this model, so the fields are the three that the literal at
    App.tsx:226-230 sets;
  - the reward outcome, the type of the `lastRewards` state (App.tsx:49).
- `profiles.dfy` (`Profiles`): new-user construction and hydration as pure functions, with
  lemmas about them.
- `session.dfy` (`Session`): the component's state as a value `AppState`, with one pure
  transition function per handler, plus:
  - event sequences (`Step`, `Run`);
  - the lesson viewer's invariant `Inv`;
  - the lemmas.

  A `setTimeout` continuation becomes a `Timer` value that records what its closure
  captured. It sits in `pending` until a separate transition, `TimerFired`, runs it. Timers
  may fire in any order, so the model has no timing.
- `app.dfy` (`AppComponent`): the class `App`. Its mutable fields are the component's state
  variables, and one method implements each handler. Every method's `ensures` ties the new
  `State()` to the corresponding `Session` transition of the old one. The exception is
  `TakeCheck`, which implements the corrected start of the finding under "## Findings"
  (`Session.QuizStarted`, not `Session.QuizStartedAsWritten`). Every handler method
  keeps `Valid()`, which is `Session.Inv`. The exception is `CompleteLesson`, which is internal
  to `FireTimeout` and is called only from it; `FireTimeout` keeps `Valid()` across the whole
  continuation. The reward engine is the constant field
  `applyLessonRewards`, a function the model leaves uninterpreted.
- `courses.dfy` (`Courses`): the course catalogue of `constants.tsx`, used as a fixture, with
  two end-to-end scenarios on its first lesson.

Interpretation choices, all following the code:

- `activeLesson.quiz?.length || 1` treats an empty quiz like a missing one, because
  `|| 1` also replaces 0. So the result handed to the engine always has
  `totalQuestions >= 1`.
- `??` replaces only absent values, so a stored 0 (coins, streak) is kept.
- The correct-answer continuation decides "advance or complete" from the lesson and index
  captured when the answer was given. It advances from the index as it is when it runs
  (`prev => prev + 1`). It completes with the user and completed set captured when the
  answer was given. The model keeps these captures.
- The reward engine's XP, coin and streak-lapse rules live in `services/progressService`, which
  is not part of this model, so the engine is an uninterpreted function here.

## Model

| member | source | states |
|---|---|---|
| `Profiles.NewUserProfile` | App.tsx:134-154 | A new account's profile is named after the account and not onboarded. It carries the current language, coins 100 and streak 1. Its streak record is {count 1, freezes 0, longest 1, last active = today}. It has xpTotal 0, xpThisWeek 0 and the friendly mentor. Its grade is empty, its level is beginner, it has no interests and the minimal theme. Smart insights, league, weak areas, timetable and notes are absent. It is fully populated, mirrored, and has no negative counter. |
| `Profiles.Hydrate` | App.tsx:165-180 | The result is onboarded, keeps the account email and is fully populated. Its legacy `streak` equals `streakState.streakCount`. A present streak record is kept unchanged. An absent one is rebuilt from the old `streak` (default 1), with longest = that value, 0 freezes and today's date. Coins, xpTotal, xpThisWeek and mentorPersona are kept when present and otherwise become 100, 0, 0 and friendly. The personal fields (name, grade, level, interests, theme) come from the answers. smartInsights, language, league, weakAreas, timetable and notes take the answers' value when present, otherwise the profile's (spread order). |
| `Profiles.HydrateIgnoresAnswerGamification` | App.tsx:166-179 | Two different sets of answers give the same gamification fields. These fields come from the prior profile, never from the quiz data. |
| `Profiles.HydrateFixesExactlyPopulated` | App.tsx:169-179 | Hydration leaves the gamification fields unchanged if and only if they were all present and `streak` already mirrored the streak record. |
| `Profiles.HydrateIdempotentOnGamification` | App.tsx:169-179 | A second onboarding, with any answers on any day, changes no gamification field of a hydrated profile. |
| `Profiles.HydrateKeepsCountersSound` | App.tsx:170-176 | If the counters that are present are non-negative, with longest streak >= count, the same holds after hydration. |
| `Profiles.OnboardingKeepsNewUserSeed` | App.tsx:143-179 | Onboarding a fresh sign-up keeps every seeded gamification value, including the sign-up date of the streak. |
| `Session.IsCorrect` | App.tsx:197 | An answer can be correct only when the lesson has a quiz and the index addresses one of its questions. |
| `Session.LessonResultFor` | App.tsx:226-230 | The result handed to the engine has correctCount = totalQuestions > 0 and durationSeconds = 60. totalQuestions is the quiz length, or 1 when there is no quiz or it is empty. |
| `Session.Initial` | App.tsx:33-50 | On mount nobody is signed in, nothing is completed, the first lesson is active and the quiz is closed at index 0. There is no feedback, selection, reward or timer. The language is the stored one, defaulting to English. |
| `Session.SignedIn` | App.tsx:126-160 | A known account is restored as stored: its profile, its language (default English) and exactly its saved lessons. An unknown account gets `NewUserProfile` in the current language, and its completed set is unchanged. The lesson viewer is untouched. |
| `Session.Onboarded` | App.tsx:162-187 | Without a user, nothing changes. Otherwise the user becomes exactly `Hydrate` of the old user with the answers, with the supplied insight text; so they are onboarded, mirrored, keep their email and carry the answers' personal fields. Nothing else changes. |
| `Session.RewardClosed` | App.tsx:425-429 | Closing the reward display hides it and clears the rewards shown, changing nothing else. |
| `Session.LoggedOut` | App.tsx:377 | Logging out leaves no signed-in profile and changes nothing else: the completed set, the lesson viewer and any scheduled continuation stay. |
| `Session.LessonOpened` | App.tsx:444 | The clicked lesson becomes active, with the quiz closed at index 0. Feedback, selection, timers and progress are kept. |
| `Session.QuizStartedAsWritten` | App.tsx:477-482 | Taking the check opens the quiz at index 0 with no feedback or selection. Already scheduled timers stay scheduled. |
| `Session.QuizStarted` | App.tsx:477-482 | As `QuizStartedAsWritten`, and the scheduled timers are cancelled (the correction of the finding below). |
| `Session.QuizClosed` | App.tsx:519 | "Back to lesson" closes the quiz and changes nothing else. |
| `Session.Answered` | App.tsx:194-216 | An answer while feedback is set changes nothing. Otherwise: the answer is selected; feedback is "correct" exactly when `IsCorrect`, else "wrong"; one timer is appended, advance-or-complete (with the closure's captures) for a correct answer and clear-feedback for a wrong one. The index, lesson and progress never change. |
| `Session.LessonCompleted` | App.tsx:218-238 | Without a (captured) user, nothing changes. Otherwise the lesson id is added to the captured completed set, and nothing is removed. The user becomes the engine's profile for `LessonResultFor(lesson)`, and the engine's rewards are shown. The lesson viewer is untouched. |
| `Session.TimerFired` | App.tsx:201-215 | The fired timer is removed and the others are kept. Clear-feedback resets feedback and selection only. Advance moves the index up by exactly one and clears feedback and selection when the captured lesson has a question after the captured index. Otherwise it completes the captured lesson with the index unchanged. |
| `Session.ScheduledTimerShowsFeedback` | App.tsx:195-198 | Under the invariant, a scheduled timer means feedback is showing, so no second answer is accepted. |
| `Session.InitialInv` | App.tsx:42-45 | The mount state satisfies the lesson viewer's invariant. |
| `Session.StepPreservesInv` | App.tsx:194-216 | With the corrected quiz start (`Step` uses `QuizStarted`, not `QuizStartedAsWritten`), every event keeps the invariant. It has three parts: at most one timer is scheduled; the timer matches the feedback showing and, while the quiz is open, the question on show; an open quiz's index addresses one of its questions. |
| `Session.RunPreservesInv` | App.tsx:194-216 | With the corrected quiz start (`Step` uses `QuizStarted`, not `QuizStartedAsWritten`), every finite sequence of events keeps the invariant (induction on the sequence). |
| `Session.ReachableQuizIndexInRange` | App.tsx:200-209 | With the corrected quiz start (`Step` uses `QuizStarted`, not `QuizStartedAsWritten`), in every state reachable from mount an open quiz's index lies within [0, quiz length), or is 0 when there are no questions. |
| `Session.WrongAnswerNeverAdvances` | App.tsx:210-215 | A wrong answer, including any answer on a lesson with no quiz, followed by its timer, leaves the index, lesson, timers and progress as they were, with feedback and selection cleared. |
| `Session.CorrectAnswerAdvancesByOne` | App.tsx:200-205 | A correct answer on a question that is not the last, followed by its timer, advances the index by exactly one, still in range, and clears feedback and selection. |
| `Session.CorrectLastAnswerCompletesLesson` | App.tsx:200-238 | A correct answer on the last question, followed by its timer, leaves the index alone. With a user, it adds the lesson id to the completed set, removes nothing, replaces the user with the engine's result and opens the reward display. Without a user, nothing is recorded. |
| `Session.LogoutBeforeCompletionRestoresUser` | App.tsx:200-238 | After a correct answer to the last question with a learner signed in, a logout before the timer runs leaves no user. The timer then records the lesson, puts the captured profile, as rewarded by the engine, back into `user` and sets `rewardOpen`. The landing page stays on screen, since views are left out. |
| `Session.RestartDuringDelayOverrunsQuiz` | App.tsx:477-482 | With the as-written quiz start, a concrete event sequence breaks the invariant and leaves an open two-question quiz at index 2. |
| `Courses.FirstLesson` | constants.tsx:12-25 | The lesson active on mount is "what-is-ai", with one question. |
| `Courses.CatalogueQuizzesWellFormed` | constants.tsx:18-83 | Every shipped lesson has a one-question quiz whose answer index is one of its options. |
| `Courses.FirstLessonScenario` | App.tsx:194-238 | A new learner answers the first lesson's question correctly. Once the timer runs, "what-is-ai" is completed and the engine was given 1 of 1 correct in 60 seconds. |
| `Courses.FirstLessonWrongScenario` | App.tsx:194-216 | A wrong answer on the first lesson shows "wrong". After the timer, feedback and selection are cleared, the index is 0 and nothing is completed. |
| `AppComponent.App.constructor` | App.tsx:33-50 | The object starts in `Session.Initial` with the given engine, and is valid. |
| `AppComponent.App.HandleAuthSuccess` | App.tsx:126-160 | Updates the fields in place to `Session.SignedIn` of the old state, keeping the invariant. |
| `AppComponent.App.HandleOnboardingComplete` | App.tsx:162-187 | Updates the fields in place to `Session.Onboarded` of the old state, keeping the invariant. |
| `AppComponent.App.OpenLesson` | App.tsx:444 | Updates the fields in place to `Session.LessonOpened`, keeping the invariant. |
| `AppComponent.App.TakeCheck` | App.tsx:477-482 | Updates the fields in place to `Session.QuizStarted` (timers cancelled), keeping the invariant. |
| `AppComponent.App.BackToLesson` | App.tsx:519 | Updates the fields in place to `Session.QuizClosed`, keeping the invariant. |
| `AppComponent.App.HandleQuizAnswer` | App.tsx:194-216 | Updates the fields in place to `Session.Answered`, keeping the invariant. |
| `AppComponent.App.CloseReward` | App.tsx:425-429 | Updates the fields in place to `Session.RewardClosed`, keeping the invariant. |
| `AppComponent.App.Logout` | App.tsx:377 | Updates the fields in place to `Session.LoggedOut`, keeping the invariant. |
| `AppComponent.App.FireTimeout` | App.tsx:201-215 | Runs the k-th scheduled continuation in place, giving `Session.TimerFired`, and keeps the invariant. |
| `AppComponent.App.CompleteLesson` | App.tsx:218-238 | Updates the fields in place to `Session.LessonCompleted` for the captured user, completed set and lesson. |

## Left out

- The reward engine `applyLessonRewards` and the internals of `LessonResult`'s consumer
  (`services/progressService`) are not part of this model. The engine is an uninterpreted
  function, and no XP, coin or streak-lapse rule is stated.
- Browser storage is left out. That covers `storageService` and the `localStorage` reads and
  writes: the saved-user restore on mount, `saveUser`, `saveProgress`, `getGlobalStudentCount`
  and the stored language. What storage returns is a parameter instead: the existing profile,
  the saved progress and the stored language.
- The insight service call (`generateSmartPathInsights`) is left out because it is an external
  service. Its text is a parameter of onboarding. The `await` is treated as atomic, so other
  events cannot interleave between hydration and storing the user.
- The clock is left out. `new Date().toISOString().slice(0, 10)` is a `today` parameter.
- Timing is left out: the `setTimeout` delays (800 ms, 600 ms, 2000 ms) and
  `performance.now()`. Only the ordering of transitions is kept, and any firing order of
  scheduled timers is allowed. The view timer after onboarding and the lesson start time are not
  modelled.
- The view state machine (`view`: landing, auth, onboarding, generating, pathway, lesson,
  chatbot, calendar), `selectedCourse`, `globalCount` and `handleUpdateUser` /
  `handleLanguageChange` are left out, as navigation and settings UI rather than the quiz or
  profile logic. The reward display's close also switches the view to the pathway; only its
  reset of `rewardOpen` and `lastRewards` is modelled.
- Logout's `storageService.logout()` call and its switch of the view to the landing page are
  left out with storage and the view state machine; only `setUser(null)` is modelled.
- JSX rendering, the theme class tables, translations and the logo component are left out as
  presentation only.
- `Profiles.Hydrate` (and so `Session.Onboarded`): JavaScript's spread also copies a key that is present with the value
  `undefined`. `Option` cannot tell that apart from an absent key, so such a key is treated as
  absent.

## Findings

| source | as written | input that shows it | evidently intended | confidence | as-written member | corrected member |
|---|---|---|---|---|---|---|
| App.tsx:477-482 | "Take the check" resets the index to 0 but leaves the previous answer's `setTimeout` continuation scheduled. That continuation later does `prev => prev + 1` on the new quiz. | Two-question quiz. Answer question 1 correctly, then within the 800 ms delay press "Back to lesson" and "Take the check", and answer question 1 correctly again. Both continuations run, and the open quiz stands at index 2: past its last question, with no question or options shown. | Restarting the quiz cancels the earlier continuations, so an open quiz always shows one of its own questions. The correction also cancels a pending completion: after a correct last answer, "Back to lesson" and "Take the check" within 800 ms leave the lesson unrecorded, where the code as written still records it and calls the reward engine. | low: needs three clicks within 800 ms, and every shipped quiz has a single question; not executed | `Session.RestartDuringDelayOverrunsQuiz` | `Session.ReachableQuizIndexInRange` |
