/**
 * The static course catalogue the application ships with, used as a
 * fixture: four lessons in three courses, each with a one-question quiz.
 * The lessons' prose and images are left empty; ids and quizzes are kept.
 */
module Courses {
  import opened Wrappers
  import opened Types
  import opened Profiles
  import opened Session

  const Catalogue: seq<Course> := [
    Course(
      "intro-ai", "Foundations of AI",
      "Master the fundamental building blocks of intelligence in the digital age.",
      "\U{1F9E0}", "bg-blue-100 text-blue-600",
      [ Lesson(
          "what-is-ai", "The Spark of Logic",
          "", "5 min", None,
          Some([QuizQuestion(
            "How does AI differ from traditional software?",
            ["It uses faster electricity", "It learns from data patterns", "It is always 100% correct", "It only works on robots"],
            1)])),
        Lesson(
          "neural-nets", "Neural Architecture",
          "", "10 min", None,
          Some([QuizQuestion(
            "What inspired the structure of modern AI models?",
            ["The Steam Engine", "The Human Brain", "Crystal Formations", "Solar Systems"],
            1)])) ]),
    Course(
      "gen-ai", "Generative Frontier",
      "Learn how machines create art, code, and language from thin air.",
      "✨", "bg-purple-100 text-purple-600",
      [ Lesson(
          "llm-basics", "The Power of Prediction",
          "", "12 min", None,
          Some([QuizQuestion(
            "What is the core mechanic of a Large Language Model?",
            ["Copying from Wikipedia", "Statistical word prediction", "Randomly picking letters", "Connecting to a human operator"],
            1)])) ]),
    Course(
      "ethics-ai", "Digital Ethics",
      "Building a future where AI is safe, fair, and helpful for everyone.",
      "⚖️", "bg-emerald-100 text-emerald-600",
      [ Lesson(
          "bias-check", "The Mirror of Data",
          "", "7 min", None,
          Some([QuizQuestion(
            "Why is bias a problem in AI?",
            ["It makes the computer slow", "It reflects human unfairness in code", "It costs more money", "It breaks the hardware"],
            1)])) ])
  ]

  /** The lesson active when the application mounts: the first lesson of the first course. */
  function FirstLesson(): (l: Lesson)
    ensures l.id == "what-is-ai" && QuestionCount(l) == 1
  {
    Catalogue[0].lessons[0]
  }

  /** Every shipped lesson has a one-question quiz whose answer is one of its options. */
  predicate WellFormedQuiz(l: Lesson)
  {
    && l.quiz.Some? && |l.quiz.value| == 1
    && 0 <= l.quiz.value[0].answerIndex < |l.quiz.value[0].options|
  }

  lemma CatalogueQuizzesWellFormed()
    ensures forall c, l :: c in Catalogue && l in c.lessons ==> WellFormedQuiz(l)
  {
  }

  /**
   * A new learner signs in, takes the first lesson's check and answers
   * option 1: once the timer runs, the lesson is completed and the reward
   * engine was given one correct answer out of one, in sixty seconds.
   */
  lemma FirstLessonScenario(engine: RewardEngine, today: IsoDate)
    ensures
      var s := QuizStarted(SignedIn(Initial(None, FirstLesson()), "ana", None, [], today));
      var r := TimerFired(Answered(s, 1), 0, engine);
      && r.completedLessons == {"what-is-ai"}
      && r.user == Some(engine(NewUserProfile("ana", En, today), LessonResult(1, 1, 60)).user)
      && r.rewardOpen && r.currentQuizIndex == 0
  {
  }

  /** The same learner answers option 0 instead: the timer clears the feedback and the quiz stays put. */
  lemma FirstLessonWrongScenario(engine: RewardEngine, today: IsoDate)
    ensures
      var s := QuizStarted(SignedIn(Initial(None, FirstLesson()), "ana", None, [], today));
      var a := Answered(s, 0);
      var r := TimerFired(a, 0, engine);
      && a.quizFeedback == Some(Wrong) && a.selectedAnswer == Some(0)
      && r.currentQuizIndex == 0 && r.quizFeedback.None? && r.selectedAnswer.None?
      && r.completedLessons == {}
  {
  }
}
