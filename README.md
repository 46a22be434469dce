# Lead-capture wizard of the SNR Infra BuildTech landing page

This project models, in Dafny, the two components that carry behaviour in the
landing page of a construction business:

- **`LeadForm`** (`lead_form.dfy`, module `LeadForm`): a wizard with a step
  counter (1 to 5, then a thank-you step 6) and a six-field string record
  (`name`, `phone`, `email`, `hasPlot`, `city`, `budget`). Its four handlers
  (`handleNext`, `handleBack`, `handleSubmit`, `updateFormData`) are the
  methods of the class `Wizard`. The primary button (Continue or Submit) and
  the Back button are the methods `PrimaryAction` and `BackAction`. These
  methods apply the rendering and `disabled` conditions of the navigation
  bar before calling a handler. The pure parts of the component are functions:
  - `isStepValid` as `IsStepValid`;
  - the progress-bar colour rule as `ProgressBar`;
  - the plot-status line of the review screen as `PlotStatusLabel`.

  The machine that the inputs and buttons drive is also given on values
  (`Session`, `Perform`, `Run`).
  This lets lemmas speak about whole sessions. The main one is that a session
  submits at most once, exactly when it reaches the thank-you step, and only a
  record with all six fields set.
- **`LandingPage`** (`landing_page.dfy`, module `LandingPage`): the class
  `Page` holds the `showLeadForm` flag and the mounted `Wizard`, if any.
  "Get Quote" mounts a new wizard and the form's `onClose` callback unmounts
  it. A reopened form therefore starts at step 1 with an empty record.

Validity is JavaScript truthiness of the strings, that is, non-emptiness
(`Truthy`). Steps 2 to 4 accept any non-empty value; no list of cities or
budgets is consulted, and the phone number and e-mail address are not checked
for format. A field can be set back to the empty string: the text inputs of
step 1 can be cleared, and `Update` allows any value.

The handlers of `Wizard` accept any call, as in the component: `HandleNext`
checks no validity and `UpdateFormData` edits any field at any step. The user
reaches them only through the inputs and the two buttons, modelled by
`InputAction`, `PrimaryAction` and `BackAction`. These three methods follow
`InputOnScreen`, `Primary` and `Back` of the value machine and keep its
reachability invariant, so `PrimaryAction` emits only complete records.

The console log of the submitted record is modelled as a returned value:
`HandleSubmit` returns the record, and `PrimaryAction` and `Perform` return
`Some(record)`.

## Model

| member | source | states |
|---|---|---|
| LeadForm.EmptyForm | src/components/LeadForm.tsx:24-31 | all six fields of the initial record are the empty string |
| LeadForm.Fresh | src/components/LeadForm.tsx:23-31 | a newly mounted form is at step 1 with every field empty, and is a reachable state |
| LeadForm.Wizard.constructor | src/components/LeadForm.tsx:23-31 | mounting gives step 1 and the empty record, a reachable state |
| LeadForm.Update | src/components/LeadForm.tsx:72-74 | the updated record holds `v` in field `f` and every other field unchanged |
| LeadForm.Wizard.UpdateFormData | src/components/LeadForm.tsx:72-74 | the record becomes `Update(old record, f, v)`; the step is unchanged |
| LeadForm.FieldStep | src/components/LeadForm.tsx:129-253 | name, phone and e-mail are edited on step 1, plot status on 2, city on 3, budget on 4 |
| LeadForm.IsStepValid | src/components/LeadForm.tsx:76-89 | a step is valid iff every field edited on that step is non-empty; steps other than 1-4 are always valid |
| LeadForm.ValidityIgnoresOtherFields | src/components/LeadForm.tsx:76-89 | editing a field of another step never changes a step's validity |
| LeadForm.ProgressBar | src/components/LeadForm.tsx:106-113 | five segments; segment i is filled iff i < step; the highlighted colour never occurs |
| LeadForm.FilledPrefix | src/components/LeadForm.tsx:106-113 | in a bar filled exactly below `step`, the first n segments hold clamp(step, 0, n) filled ones |
| LeadForm.FilledSegments | src/components/LeadForm.tsx:106-113 | the bar at `step` shows min(max(step, 0), 5) filled segments |
| LeadForm.PlotStatusLabel | src/components/LeadForm.tsx:277 | "Own a plot" iff the answer is "yes", otherwise (empty included) "Planning to buy" |
| LeadForm.Wizard.HandleNext | src/components/LeadForm.tsx:54-58 | below step 5 the step goes up by exactly one, else unchanged; no validity check; record unchanged; 1 <= step <= 6 kept |
| LeadForm.Wizard.HandleBack | src/components/LeadForm.tsx:60-64 | above step 1 the step goes down by exactly one, at step 1 unchanged; record unchanged; 1 <= step <= 6 kept |
| LeadForm.Wizard.HandleSubmit | src/components/LeadForm.tsx:66-70 | emits a record equal to the current one and moves to step totalSteps + 1 = 6; record unchanged |
| LeadForm.Primary | src/components/LeadForm.tsx:315-329 | hidden (step > 5) or disabled (step invalid): nothing changes and nothing is emitted; valid step s < 5: moves to s + 1; step 5: moves to 6 and emits the record; it emits iff the step is 5; from a reachable state what it emits is complete and the new state is reachable |
| LeadForm.Wizard.PrimaryAction | src/components/LeadForm.tsx:315-329 | the new state and emitted record are those of `Primary` on the old state; 1 <= step <= 6 kept; from a reachable state the new state is reachable and what it emits is complete |
| LeadForm.Back | src/components/LeadForm.tsx:315-321 | shown only for 1 < step <= 5, where it moves to step - 1; otherwise nothing changes; the record is never touched; reachability kept |
| LeadForm.Wizard.BackAction | src/components/LeadForm.tsx:315-321 | the new state is `Back` of the old state; 1 <= step <= 6 kept; reachability kept |
| LeadForm.Wizard.InputAction | src/components/LeadForm.tsx:142-251 | the new state is `InputOnScreen` of the old state: the field changes only on its own step; reachability kept |
| LeadForm.InputOnScreen | src/components/LeadForm.tsx:142-251 | a field can be edited only on its own step; the step never changes; reachability kept |
| LeadForm.Perform | src/components/LeadForm.tsx:129-331 | only Continue on step 5 emits, and it emits the current record; at step 6 no action changes anything; reachability kept |
| LeadForm.ThankYouIsFinal | src/components/LeadForm.tsx:291-331 | from the thank-you step no sequence of form actions changes the state or submits |
| LeadForm.RunFrom | src/components/LeadForm.tsx:54-89 | from a reachable state any run stays reachable, submits once iff it enters step 6 (never otherwise), and submits only complete records equal to the final record |
| LeadForm.SessionSubmitsOnce | src/components/LeadForm.tsx:66-70 | a session from mounting keeps 1 <= step <= 6, submits at most once, exactly when it ends at step 6, and only a record with all six fields set |
| LeadForm.Walkthrough | src/components/LeadForm.tsx:54-89 | the walkthrough Ravi / 9876543210 / ravi@example.com / yes / Hyderabad / 1 Crore – 2 Crore, with a refused Continue at step 2, ends at step 6 having emitted exactly that record |
| LeadForm.BackTwiceKeepsAnswers | src/components/LeadForm.tsx:60-64 | two Back presses from step 3 return to step 1 with the record unchanged and nothing submitted |
| LandingPage.Page.constructor | src/components/LandingPage.tsx:9 | `showLeadForm` starts false and no form is mounted |
| LandingPage.Page.Rendered | src/components/LandingPage.tsx:40-42 | the form alone is rendered iff `showLeadForm`, at the form's step, which lies in 1..6 |
| LandingPage.Page.GetQuote | src/components/LandingPage.tsx:114-119 | sets `showLeadForm` and mounts a new form at step 1 with an empty record |
| LandingPage.Page.Close | src/components/LandingPage.tsx:41 | clears `showLeadForm` and unmounts the form; the page content is rendered again |
| LandingPage.CloseThenReopen | src/components/LandingPage.tsx:40-42 | closing at any step and reopening gives a different form at step 1 with all fields empty |

## Left out

- JSX layout, CSS class strings, icons, the hero image and the review screen's display strings other than the plot-status line. They are presentation only.
- The marketing arrays `highlights` and `whyChooseUs`, and the `cities` and `budgetOptions` lists. The first two are static copy. The last two only feed the radio groups; no validity rule reads them.
- The `console.log` call itself. The model returns the submitted record instead of printing it.
- React's `useState`, re-rendering and the functional-update form of `setFormData`. The model treats state as plain fields updated at once.
- The `Button`, `RadioGroup` and `Input` components and DOM events. They are library code; an edit is modelled as a direct `updateFormData` call.
- LeadForm.InputOnScreen: an edit of a field whose input is not on the current screen is a no-op. In the component no control exists for it.
- LandingPage.Page.GetQuote: requires the form to be hidden, because the button exists only on the page's own content.

