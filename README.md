# DreamGift landing page: navigation and questionnaire state machine

DreamGift is a single-page React site. It has six screens: home, how it
works, examples, about, quiz and contacts. The quiz screen holds a
three-question gift questionnaire: the occasion, the budget and the
recipient's interests. After the last question it shows a fixed list of
three gift ideas. All behaviour lives in `src/pages/Index.tsx`. The `Index`
component keeps the current screen, the quiz step and the answers. The
`QuizScreen` component keeps the flag that says the result is on show.

This project models that state machine in two modules:

- `navigation.dfy`, module `Navigation`: the state as a value (`State`) and
  what each state renders (`Render`). It also says when each control is on
  screen (`Available`) and what each user event does (`Apply`, and `Run` for
  a sequence of events). `Consistent` is the invariant of every reachable
  state. The lemmas relate several events.
- `index_page.dfy`, module `IndexPage`: class `Index` with the four state
  cells as fields and one method per event handler. Each method states its
  new fields directly and is proved equal to `Apply` on the old state.

Each handler can only fire while its control is rendered. The model makes
that explicit: an event whose control is not on screen changes nothing, and
the method returns `accepted == false`. The Next button's `disabled`
condition is the guard of the Next event. The radio groups can only produce
the values of their own radio buttons, so the occasion and budget setters
accept only those values. The interests text field accepts any text,
including the empty one.

Some of this behaviour may be unexpected. Navigation and "take again" might
be expected to clear the answers; the code does not. The model follows the
code:

- `navigateTo` and the "take again" button never clear the answers
  (`AnswersKeptWithoutAnswerEvents`, `LeaveAndReturnKeepsAnswers`).
- After "take again", question 1 still holds its old answer, so Next is
  enabled at once (`RetakeKeepsNextEnabled`).
- The result flag is not reset by `navigateTo` itself. It is reset because
  the questionnaire component unmounts when another screen is shown. So
  navigation clears it unless the target is the quiz screen and the quiz
  screen is already showing.

## Model

| member | source | states |
|---|---|---|
| `Navigation.Initial` | src/pages/Index.tsx:12-18 | The initial state satisfies the invariant, and its Next button is disabled because no answer is given yet |
| `Navigation.NextEnabled` | src/pages/Index.tsx:494-498 | For steps 1 to 3, Next is enabled exactly when that step's answer (occasion, budget, interests) is non-empty; any non-empty text counts |
| `Navigation.Render` | src/pages/Index.tsx:25-42 | Each static screen shows its own view. The quiz screen shows the result view, holding exactly the three fixed entries, exactly when the result flag is set, and the question view otherwise. The question view is at the current step, shows Back exactly above step 1, and its Next is enabled as `NextEnabled` says |
| `Navigation.Apply` | src/pages/Index.tsx:20-498 | Every event keeps the invariant (step in 1..3, answers set before they are needed). Only navigation changes the screen and only answer events change the answers. The result appears only after an enabled Next at step 3 with non-empty interests |
| `Navigation.Run` | src/pages/Index.tsx:11-23 | Any sequence of events from a consistent state ends in a consistent state |
| `Navigation.AnswersKeptWithoutAnswerEvents` | src/pages/Index.tsx:20-23 | Events other than answer events never change the answers; navigation and "take again" do not clear them |
| `Navigation.ScreenKeptWithoutNavigation` | src/pages/Index.tsx:20-23 | The screen changes only through navigation |
| `Navigation.ResultOnlyWhenAllAnswered` | src/pages/Index.tsx:329-335 | From the initial state, the step always stays within 1..3. The result is shown only on the quiz screen, with all three answers non-empty |
| `Navigation.LeaveAndReturnKeepsAnswers` | src/pages/Index.tsx:20-23 | From any state, going to another screen and back to the quiz gives question 1 with no result and the earlier answers unchanged |
| `Navigation.NavigateIdempotent` | src/pages/Index.tsx:20-23 | Navigating twice to the same screen is the same as navigating there once |
| `Navigation.RetakeKeepsNextEnabled` | src/pages/Index.tsx:382 | "Take again" gives question 1 with no result and the answers kept; its Back button is hidden and its Next button is enabled |
| `Navigation.ResultIndependentOfAnswers` | src/pages/Index.tsx:337-379 | While the result is shown, the view is the same three fixed entries whatever the answers are |
| `Navigation.Walkthrough` | src/pages/Index.tsx:416-498 | Opening the quiz and answering the three questions, with Next after each, shows the result with those answers recorded |
| `IndexPage.Index.constructor` | src/pages/Index.tsx:12-18 | Starts at the home screen, question 1, all three answers empty, no result |
| `IndexPage.Index.NavigateTo` | src/pages/Index.tsx:20-23 | Sets the screen to the target and the step to 1 for every target, keeps the answers, and clears the result flag unless the target is the quiz screen |
| `IndexPage.Index.HandleNext` | src/pages/Index.tsx:329-335 | Accepted exactly when the question view shows an enabled Next. At step 1 or 2 it adds one to the step and no result is shown; at step 3 it shows the result and the step stays 3. Otherwise nothing changes |
| `IndexPage.Index.HandleBack` | src/pages/Index.tsx:485-486 | Accepted exactly when the question view is at a step above 1; then it lowers the step by one and changes nothing else |
| `IndexPage.Index.HandleRetake` | src/pages/Index.tsx:382 | Accepted exactly on the result view; clears the result flag, sets the step to 1 and keeps the answers |
| `IndexPage.Index.SelectOccasion` | src/pages/Index.tsx:423-425 | At question 1, with one of the five occasion options, it sets the occasion only; the budget, the interests, the step and the screen are unchanged |
| `IndexPage.Index.SelectBudget` | src/pages/Index.tsx:447-449 | At question 2, with one of the five budget options, it sets the budget only; everything else is unchanged |
| `IndexPage.Index.EditInterests` | src/pages/Index.tsx:473-477 | At question 3 it sets the interests to any text, the empty one included; everything else is unchanged |
| `IndexPage.Index.CurrentView` | src/pages/Index.tsx:25-498 | Each static screen shows its own view. The result view is shown exactly when the quiz screen has the result flag set, and it holds the fixed list. The question view is shown exactly when the quiz screen has no result; it is at the current step, which lies in 1..3, shows Back exactly above step 1, and enables Next exactly when that step's answer is non-empty |

## Left out

- Rendering: markup, CSS classes, icons, images and the progress bar colouring. The model keeps only which view is shown and which questionnaire controls are present or enabled.
- The static screens (home, how it works, examples with its example list, about, contacts) are reduced to a screen tag. So is the set of links each screen offers: `Navigate` accepts any target, as `navigateTo` does.
- The contact form has no handler and no state, so it has no behaviour to model.
- The `default` branch of the screen switch cannot be reached once the screen is a closed datatype.
- React mechanics are not modelled: batched or asynchronous state updates, mounting and unmounting, and the answer setters copying a possibly stale `quizData`. Each handler is one atomic update. Unmounting the questionnaire is modelled as navigation to another screen clearing the result flag.
- The question, heading and button texts are presentation. The radio option values and the three result entries are kept as constants.
