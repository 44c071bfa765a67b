/** The page component itself: the four state cells as fields, and one
    method per event handler, each overwriting the cells the handler sets.
    Every handler first checks that its control is on screen and otherwise
    does nothing; `accepted` says which happened. Each method is proved
    against `Navigation.Apply`, so the lemmas of module `Navigation` hold of
    any sequence of calls. */
module IndexPage {
  import opened Navigation

  class Index {
    var currentScreen: Screen
    var quizStep: int
    var quizData: QuizData
    /** Belongs to the questionnaire component: false again whenever that
        component is left. */
    var showResult: bool

    /** The state cells as one value. */
    function Snapshot(): State
      reads this
    {
      State(currentScreen, quizStep, quizData, showResult)
    }

    ghost predicate Valid()
      reads this
    {
      Consistent(Snapshot())
    }

    /** The page as first loaded: home screen, question 1, no answers, no result. */
    constructor ()
      ensures Valid()
      ensures currentScreen == Home && quizStep == 1 && !showResult
      ensures quizData == QuizData("", "", "")
      ensures Snapshot() == Initial()
    {
      currentScreen := Home;
      quizStep := 1;
      quizData := NoAnswers;
      showResult := false;
    }

    /** Shows `screen` and restarts the questionnaire at question 1; the
        answers stay as they are. */
    method NavigateTo(screen: Screen)
      requires Valid()
      modifies this
      ensures Valid()
      ensures currentScreen == screen && quizStep == 1
      ensures quizData == old(quizData)
      ensures showResult == (screen == Quiz && old(showResult))
      ensures Snapshot() == Apply(old(Snapshot()), Navigate(screen))
    {
      showResult := screen == Quiz && currentScreen == Quiz && showResult;
      currentScreen := screen;
      quizStep := 1;
    }

    /** The Next button: on an enabled click, moves to the next question,
        or from question 3 to the result. */
    method HandleNext() returns (accepted: bool)
      requires Valid()
      modifies this
      ensures Valid()
      ensures accepted <==>
        old(currentScreen) == Quiz && !old(showResult) && NextEnabled(old(quizStep), old(quizData))
      ensures accepted && old(quizStep) < 3 ==> quizStep == old(quizStep) + 1 && !showResult
      ensures accepted && old(quizStep) == 3 ==> quizStep == 3 && showResult
      ensures !accepted ==> quizStep == old(quizStep) && showResult == old(showResult)
      ensures currentScreen == old(currentScreen) && quizData == old(quizData)
      ensures Snapshot() == Apply(old(Snapshot()), NextClicked)
    {
      accepted := currentScreen == Quiz && !showResult && NextEnabled(quizStep, quizData);
      if accepted {
        if quizStep < 3 {
          quizStep := quizStep + 1;
        } else {
          showResult := true;
        }
      }
    }

    /** The Back button of the questionnaire, shown above question 1 only:
        goes back one question and changes nothing else. */
    method HandleBack() returns (accepted: bool)
      requires Valid()
      modifies this
      ensures Valid()
      ensures accepted <==> old(currentScreen) == Quiz && !old(showResult) && old(quizStep) > 1
      ensures quizStep == if accepted then old(quizStep) - 1 else old(quizStep)
      ensures currentScreen == old(currentScreen) && quizData == old(quizData)
      ensures showResult == old(showResult)
      ensures Snapshot() == Apply(old(Snapshot()), BackClicked)
    {
      accepted := currentScreen == Quiz && !showResult && quizStep > 1;
      if accepted {
        quizStep := quizStep - 1;
      }
    }

    /** The "take again" button of the result: back to question 1, answers kept. */
    method HandleRetake() returns (accepted: bool)
      requires Valid()
      modifies this
      ensures Valid()
      ensures accepted <==> old(currentScreen) == Quiz && old(showResult)
      ensures accepted ==> !showResult && quizStep == 1
      ensures !accepted ==> showResult == old(showResult) && quizStep == old(quizStep)
      ensures currentScreen == old(currentScreen) && quizData == old(quizData)
      ensures Snapshot() == Apply(old(Snapshot()), RetakeClicked)
    {
      accepted := currentScreen == Quiz && showResult;
      if accepted {
        showResult := false;
        quizStep := 1;
      }
    }

    /** Picking a radio button of question 1 sets the occasion and nothing else. */
    method SelectOccasion(occasion: string) returns (accepted: bool)
      requires Valid()
      modifies this
      ensures Valid()
      ensures accepted <==>
        old(currentScreen) == Quiz && !old(showResult) && old(quizStep) == 1 && occasion in OccasionOptions
      ensures quizData == if accepted then old(quizData).(occasion := occasion) else old(quizData)
      ensures currentScreen == old(currentScreen) && quizStep == old(quizStep)
      ensures showResult == old(showResult)
      ensures Snapshot() == Apply(old(Snapshot()), ChooseOccasion(occasion))
    {
      accepted := currentScreen == Quiz && !showResult && quizStep == 1 && occasion in OccasionOptions;
      if accepted {
        quizData := quizData.(occasion := occasion);
      }
    }

    /** Picking a radio button of question 2 sets the budget and nothing else. */
    method SelectBudget(budget: string) returns (accepted: bool)
      requires Valid()
      modifies this
      ensures Valid()
      ensures accepted <==>
        old(currentScreen) == Quiz && !old(showResult) && old(quizStep) == 2 && budget in BudgetOptions
      ensures quizData == if accepted then old(quizData).(budget := budget) else old(quizData)
      ensures currentScreen == old(currentScreen) && quizStep == old(quizStep)
      ensures showResult == old(showResult)
      ensures Snapshot() == Apply(old(Snapshot()), ChooseBudget(budget))
    {
      accepted := currentScreen == Quiz && !showResult && quizStep == 2 && budget in BudgetOptions;
      if accepted {
        quizData := quizData.(budget := budget);
      }
    }

    /** Editing the text field of question 3 sets the interests, to any text
        including the empty one, and nothing else. */
    method EditInterests(interests: string) returns (accepted: bool)
      requires Valid()
      modifies this
      ensures Valid()
      ensures accepted <==> old(currentScreen) == Quiz && !old(showResult) && old(quizStep) == 3
      ensures quizData == if accepted then old(quizData).(interests := interests) else old(quizData)
      ensures currentScreen == old(currentScreen) && quizStep == old(quizStep)
      ensures showResult == old(showResult)
      ensures Snapshot() == Apply(old(Snapshot()), TypeInterests(interests))
    {
      accepted := currentScreen == Quiz && !showResult && quizStep == 3;
      if accepted {
        quizData := quizData.(interests := interests);
      }
    }

    /** What the page shows now. */
    method CurrentView() returns (v: View)
      requires Valid()
      ensures v.ResultView? <==> currentScreen == Quiz && showResult
      ensures v.ResultView? ==> v.entries == Results
      ensures v.QuestionView? <==> currentScreen == Quiz && !showResult
      ensures v.QuestionView? ==>
        && v.step == quizStep
        && 1 <= v.step <= 3
        && (v.backShown <==> v.step > 1)
        && (v.nextEnabled <==> AnswerAt(v.step, quizData) != "")
      ensures currentScreen == Home ==> v == HomeView
      ensures currentScreen == HowItWorks ==> v == HowItWorksView
      ensures currentScreen == Examples ==> v == ExamplesView
      ensures currentScreen == About ==> v == AboutView
      ensures currentScreen == Contacts ==> v == ContactsView
    {
      v := Render(Snapshot());
    }
  }
}
