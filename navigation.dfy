/** The state machine of the DreamGift landing page: which screen is shown,
    which question of the gift questionnaire is active, the answers collected
    so far, and whether the recommendation result is on display.

    The page keeps four state cells: the current screen, the quiz step and the
    quiz answers live in the `Index` component, the result flag in the
    `QuizScreen` component. This module describes them as one value `State`,
    says which controls each state puts on screen (`Render`), and gives the
    effect of every user event (`Apply`). The class in module `IndexPage`
    implements the same transitions by updating fields in place. */
module Navigation {

  /** The six top-level screens. */
  datatype Screen = Home | HowItWorks | Examples | About | Quiz | Contacts

  /** The questionnaire answers; the empty string means "not answered". */
  datatype QuizData = QuizData(occasion: string, budget: string, interests: string)

  /** The whole page state: `quizStep` is a plain integer, as in the page. */
  datatype State = State(screen: Screen, quizStep: int, data: QuizData, showResult: bool)

  /** One entry of the recommendation list. */
  datatype Recommendation = Recommendation(title: string, description: string)

  /** The values of the radio buttons of question 1. */
  const OccasionOptions: seq<string> :=
    ["День рождения", "Новый год", "Годовщина", "Свадьба", "Просто так"]

  /** The values of the radio buttons of question 2. */
  const BudgetOptions: seq<string> :=
    ["До 1000₽", "1000-3000₽", "3000-5000₽", "5000-10000₽", "Больше 10000₽"]

  /** The recommendation list: fixed, whatever the answers were. */
  const Results: seq<Recommendation> := [
    Recommendation("Персонализированный фотоальбом", "С совместными фотографиями и памятными моментами"),
    Recommendation("Впечатление на двоих", "Сертификат в ресторан или мастер-класс"),
    Recommendation("Умные часы", "Для отслеживания активности и здоровья")
  ]

  const NoAnswers := QuizData("", "", "")

  /** What the page shows. A question view carries the step it is at,
      whether its Back button is there and whether its Next button is enabled. */
  datatype View =
    | HomeView
    | HowItWorksView
    | ExamplesView
    | AboutView
    | ContactsView
    | QuestionView(step: int, backShown: bool, nextEnabled: bool)
    | ResultView(entries: seq<Recommendation>)

  /** User events: following a navigation link, picking or typing an answer,
      and the Next, Back and "take again" buttons of the questionnaire. */
  datatype Event =
    | Navigate(target: Screen)
    | ChooseOccasion(occasion: string)
    | ChooseBudget(budget: string)
    | TypeInterests(interests: string)
    | NextClicked
    | BackClicked
    | RetakeClicked

  predicate IsAnswerEvent(e: Event) {
    e.ChooseOccasion? || e.ChooseBudget? || e.TypeInterests?
  }

  /** The answer that question `step` collects. */
  function AnswerAt(step: int, d: QuizData): string
    requires 1 <= step <= 3
  {
    if step == 1 then d.occasion else if step == 2 then d.budget else d.interests
  }

  /** The Next button is enabled unless the current question's answer is
      empty; any non-empty text counts, with no trimming. */
  function NextEnabled(step: int, d: QuizData): (enabled: bool)
    ensures 1 <= step <= 3 ==> (enabled <==> AnswerAt(step, d) != "")
    ensures !(1 <= step <= 3) ==> enabled
  {
    !((step == 1 && d.occasion == "") ||
      (step == 2 && d.budget == "") ||
      (step == 3 && d.interests == ""))
  }

  /** The page as first loaded. */
  function Initial(): (s: State)
    ensures Consistent(s)
    ensures !NextEnabled(s.quizStep, s.data)
  {
    State(Home, 1, NoAnswers, false)
  }

  /** The view the page renders in state `s`. */
  function Render(s: State): (v: View)
    ensures v.ResultView? <==> s.screen == Quiz && s.showResult
    ensures v.ResultView? ==> v.entries == Results && |v.entries| == 3
    ensures v.QuestionView? <==> s.screen == Quiz && !s.showResult
    ensures v.QuestionView? ==>
      && v.step == s.quizStep
      && (v.backShown <==> s.quizStep > 1)
      && v.nextEnabled == NextEnabled(s.quizStep, s.data)
    ensures s.screen == Home ==> v == HomeView
    ensures s.screen == HowItWorks ==> v == HowItWorksView
    ensures s.screen == Examples ==> v == ExamplesView
    ensures s.screen == About ==> v == AboutView
    ensures s.screen == Contacts ==> v == ContactsView
  {
    match s.screen
    case Home => HomeView
    case HowItWorks => HowItWorksView
    case Examples => ExamplesView
    case About => AboutView
    case Contacts => ContactsView
    case Quiz =>
      if s.showResult then ResultView(Results)
      else QuestionView(s.quizStep, s.quizStep > 1, NextEnabled(s.quizStep, s.data))
  }

  /** Whether the control that raises `e` is on screen in state `s`. */
  predicate Available(s: State, e: Event) {
    var v := Render(s);
    match e
    case Navigate(_) => true
    case ChooseOccasion(o) => v.QuestionView? && v.step == 1 && o in OccasionOptions
    case ChooseBudget(b) => v.QuestionView? && v.step == 2 && b in BudgetOptions
    case TypeInterests(_) => v.QuestionView? && v.step == 3
    case NextClicked => v.QuestionView? && v.nextEnabled
    case BackClicked => v.QuestionView? && v.backShown
    case RetakeClicked => v.ResultView?
  }

  /** The invariant of every reachable state. */
  predicate Consistent(s: State) {
    && 1 <= s.quizStep <= 3
    && (s.showResult ==> s.screen == Quiz)
    && (s.data.occasion == "" || s.data.occasion in OccasionOptions)
    && (s.data.budget == "" || s.data.budget in BudgetOptions)
    && (s.quizStep >= 2 ==> s.data.occasion != "")
    && (s.quizStep == 3 ==> s.data.budget != "")
    && (s.showResult ==> s.data.occasion != "" && s.data.budget != "" && s.data.interests != "")
  }

  /** The effect of event `e` in state `s`: nothing when its control is not
      on screen. Navigation keeps the result flag only when it goes from the
      quiz screen to the quiz screen, because only then does the questionnaire
      component stay mounted. */
  function Apply(s: State, e: Event): (t: State)
    ensures Consistent(s) ==> Consistent(t)
    ensures t.screen != s.screen ==> e.Navigate?
    ensures t.data != s.data ==> IsAnswerEvent(e)
    ensures Consistent(s) && !s.showResult && t.showResult ==>
      e == NextClicked && s.screen == Quiz && s.quizStep == 3 && s.data.interests != ""
  {
    if !Available(s, e) then s
    else match e
      case Navigate(target) =>
        State(target, 1, s.data, target == Quiz && s.screen == Quiz && s.showResult)
      case ChooseOccasion(o) => s.(data := s.data.(occasion := o))
      case ChooseBudget(b) => s.(data := s.data.(budget := b))
      case TypeInterests(i) => s.(data := s.data.(interests := i))
      case NextClicked =>
        if s.quizStep < 3 then s.(quizStep := s.quizStep + 1) else s.(showResult := true)
      case BackClicked => s.(quizStep := s.quizStep - 1)
      case RetakeClicked => s.(showResult := false, quizStep := 1)
  }

  /** The state after the events `events`, in order. */
  function Run(s: State, events: seq<Event>): (t: State)
    ensures Consistent(s) ==> Consistent(t)
    decreases |events|
  {
    if events == [] then s else Run(Apply(s, events[0]), events[1..])
  }

  /** The answers are never cleared: only picking or typing an answer changes
      them, neither navigation nor "take again" does. */
  lemma {:induction false} AnswersKeptWithoutAnswerEvents(s: State, events: seq<Event>)
    requires forall i :: 0 <= i < |events| ==> !IsAnswerEvent(events[i])
    ensures Run(s, events).data == s.data
    decreases |events|
  {
    if events != [] {
      assert !IsAnswerEvent(events[0]);
      assert forall i :: 0 <= i < |events[1..]| ==> events[1..][i] == events[i + 1];
      AnswersKeptWithoutAnswerEvents(Apply(s, events[0]), events[1..]);
    }
  }

  /** The screen only changes through navigation. */
  lemma {:induction false} ScreenKeptWithoutNavigation(s: State, events: seq<Event>)
    requires forall i :: 0 <= i < |events| ==> !events[i].Navigate?
    ensures Run(s, events).screen == s.screen
    decreases |events|
  {
    if events != [] {
      assert !events[0].Navigate?;
      assert forall i :: 0 <= i < |events[1..]| ==> events[1..][i] == events[i + 1];
      ScreenKeptWithoutNavigation(Apply(s, events[0]), events[1..]);
    }
  }

  /** Whatever the user does from the start, the result is shown only with
      all three questions answered and the step within 1..3. */
  lemma ResultOnlyWhenAllAnswered(events: seq<Event>)
    ensures var t := Run(Initial(), events);
      && 1 <= t.quizStep <= 3
      && (t.showResult ==> t.screen == Quiz && t.data.occasion != "" && t.data.budget != "" && t.data.interests != "")
  {
  }

  /** Leaving the questionnaire for another screen and coming back starts it
      again at question 1, without the result, and with the answers given before. */
  lemma LeaveAndReturnKeepsAnswers(s: State, elsewhere: Screen)
    requires elsewhere != Quiz
    ensures var t := Run(s, [Navigate(elsewhere), Navigate(Quiz)]);
      t == State(Quiz, 1, s.data, false)
  {
    var u := Apply(s, Navigate(elsewhere));
    assert u == State(elsewhere, 1, s.data, false);
    assert Run(s, [Navigate(elsewhere), Navigate(Quiz)]) == Run(u, [Navigate(Quiz)]);
    assert Run(u, [Navigate(Quiz)]) == Run(Apply(u, Navigate(Quiz)), []);
  }

  /** Navigating to the same screen twice is navigating there once. */
  lemma NavigateIdempotent(s: State, target: Screen)
    ensures Apply(Apply(s, Navigate(target)), Navigate(target)) == Apply(s, Navigate(target))
  {
  }

  /** "Take again" goes back to question 1 with the previous answers, so the
      Next button there is enabled at once. */
  lemma RetakeKeepsNextEnabled(s: State)
    requires Consistent(s)
    requires s.screen == Quiz && s.showResult
    ensures Apply(s, RetakeClicked) == State(Quiz, 1, s.data, false)
    ensures Render(Apply(s, RetakeClicked)) == QuestionView(1, false, true)
  {
  }

  /** The result view is the same three entries whatever the answers. */
  lemma ResultIndependentOfAnswers(s: State, d: QuizData)
    requires s.screen == Quiz && s.showResult
    ensures Render(s.(data := d)) == Render(s) == ResultView(Results)
  {
  }

  /** Answering the three questions and pressing Next after each shows the result. */
  lemma Walkthrough()
    ensures var t := Run(Initial(), [
        Navigate(Quiz),
        ChooseOccasion("День рождения"), NextClicked,
        ChooseBudget("3000-5000₽"), NextClicked,
        TypeInterests("путешествия"), NextClicked]);
      && t == State(Quiz, 3, QuizData("День рождения", "3000-5000₽", "путешествия"), true)
      && Render(t) == ResultView(Results)
  {
  }
}
