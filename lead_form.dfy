/** The lead-capture wizard: a five-step questionnaire (contact details, plot
    status, city, budget, review) followed by a thank-you screen.

    The record of answers, the validity rule of each step, the progress bar and
    the review label are pure functions over the current state.  The component's
    mutable state (the step counter and the record) lives in the class `Wizard`,
    whose methods are the four handlers of the component, the two buttons of
    its navigation bar and the inputs of its screens.  `Session`, `Perform`
    and `Run` describe the machine the buttons and inputs drive on values, so
    that whole sessions can be reasoned about. */
module LeadForm {

  datatype Option<T> = None | Some(value: T)

  /** The keys of the form record. */
  datatype Field = Name | Phone | Email | HasPlot | City | Budget

  /** The form record; every field starts as the empty string. */
  datatype FormData = FormData(name: string, phone: string, email: string,
                               hasPlot: string, city: string, budget: string)

  /** Number of question/review steps; the thank-you screen is one past it. */
  const TotalSteps: int := 5
  const ThankYouStep: int := TotalSteps + 1

  /** `formData[field]`. */
  function Get(d: FormData, f: Field): string
  {
    match f
    case Name => d.name
    case Phone => d.phone
    case Email => d.email
    case HasPlot => d.hasPlot
    case City => d.city
    case Budget => d.budget
  }

  /** A record whose six fields are all set (non-empty). */
  predicate Complete(d: FormData)
  {
    forall f :: Truthy(Get(d, f))
  }

  /** The initial record of a freshly mounted form. */
  function EmptyForm(): (d: FormData)
    ensures forall f :: Get(d, f) == ""
  {
    FormData("", "", "", "", "", "")
  }

  /** `updateFormData(field, value)`: a copy of the record with `field`
      replaced by `value` and every other field kept. */
  function Update(d: FormData, f: Field, v: string): (r: FormData)
    ensures Get(r, f) == v
    ensures forall g :: g != f ==> Get(r, g) == Get(d, g)
  {
    match f
    case Name => d.(name := v)
    case Phone => d.(phone := v)
    case Email => d.(email := v)
    case HasPlot => d.(hasPlot := v)
    case City => d.(city := v)
    case Budget => d.(budget := v)
  }

  /** JavaScript truthiness of a string: only the empty string is falsy. */
  predicate Truthy(s: string)
  {
    |s| > 0
  }

  /** The step whose screen holds the input (text box or radio group) that
      edits `f`. */
  function FieldStep(f: Field): (k: int)
    ensures 1 <= k < TotalSteps
    ensures k == 1 <==> f == Name || f == Phone || f == Email
    ensures k == 2 <==> f == HasPlot
    ensures k == 3 <==> f == City
    ensures k == 4 <==> f == Budget
  {
    match f
    case Name => 1
    case Phone => 1
    case Email => 1
    case HasPlot => 2
    case City => 3
    case Budget => 4
  }

  /** `isStepValid()`: whether the primary button is enabled at `step`.
      A step is valid exactly when every field whose input is on that step's
      screen is truthy; no other field, and no list of allowed values,
      influences the result.  Steps with no input (the review step, the
      thank-you step) are always valid. */
  function IsStepValid(step: int, d: FormData): (ok: bool)
    ensures ok <==> forall f :: FieldStep(f) == step ==> Truthy(Get(d, f))
    ensures !(1 <= step < TotalSteps) ==> ok
  {
    if step == 1 then Truthy(Get(d, Name)) && Truthy(Get(d, Phone)) && Truthy(Get(d, Email))
    else if step == 2 then Truthy(Get(d, HasPlot))
    else if step == 3 then Truthy(Get(d, City))
    else if step == 4 then Truthy(Get(d, Budget))
    else true
  }

  /** Editing a field whose input is on another step never changes whether
      `step` is valid. */
  lemma ValidityIgnoresOtherFields(step: int, d: FormData, f: Field, v: string)
    requires FieldStep(f) != step
    ensures IsStepValid(step, Update(d, f, v)) == IsStepValid(step, d)
  {
  }

  // ---------------------------------------------------------------------
  // Progress bar

  /** Colour of one progress segment: filled, highlighted as current, or
      muted. */
  datatype Segment = Filled | Current | Muted

  /** The colour rule of segment `i` at `step`, as written: filled when
      `i < step`, else highlighted when `i == step - 1`, else muted. */
  function SegmentAt(i: int, step: int): Segment
  {
    if i < step then Filled else if i == step - 1 then Current else Muted
  }

  /** The `totalSteps` segments of the progress bar.  Segment `i` is filled
      exactly when `i < step`, and the highlighted colour never appears:
      every index with `i == step - 1` already satisfies `i < step`. */
  function ProgressBar(step: int): (bar: seq<Segment>)
    ensures |bar| == TotalSteps
    ensures forall i :: 0 <= i < |bar| ==> (bar[i] == Filled <==> i < step)
    ensures forall i :: 0 <= i < |bar| ==> bar[i] != Current
  {
    seq(TotalSteps, i => SegmentAt(i, step))
  }

  /** Number of filled segments in a bar. */
  function FilledCount(bar: seq<Segment>): nat
  {
    if bar == [] then 0
    else FilledCount(bar[..|bar| - 1]) + (if bar[|bar| - 1] == Filled then 1 else 0)
  }

  function Clamp(x: int, lo: int, hi: int): int
  {
    if x < lo then lo else if x > hi then hi else x
  }

  /** In any bar whose segment `i` is filled exactly when `i < step`, the
      first `n` segments hold `min(max(step, 0), n)` filled ones. */
  lemma {:induction false} FilledPrefix(bar: seq<Segment>, step: int, n: nat)
    requires n <= |bar|
    requires forall i :: 0 <= i < |bar| ==> (bar[i] == Filled <==> i < step)
    ensures FilledCount(bar[..n]) == Clamp(step, 0, n)
  {
    if n > 0 {
      FilledPrefix(bar, step, n - 1);
      assert bar[..n][..n - 1] == bar[..n - 1];
      assert bar[..n][n - 1] == bar[n - 1];
    }
  }

  /** The progress bar at `step` shows `min(step, 5)` filled segments (none
      for a step below 1). */
  lemma FilledSegments(step: int)
    ensures FilledCount(ProgressBar(step)) == Clamp(step, 0, TotalSteps)
  {
    var bar := ProgressBar(step);
    FilledPrefix(bar, step, |bar|);
    assert bar[..|bar|] == bar;
  }

  // ---------------------------------------------------------------------
  // Review screen

  /** The plot-status line of the review screen: "Own a plot" exactly when
      the answer is "yes"; any other answer, the empty one included, reads
      "Planning to buy". */
  function PlotStatusLabel(hasPlot: string): (text: string)
    ensures text == "Own a plot" <==> hasPlot == "yes"
    ensures text == "Own a plot" || text == "Planning to buy"
  {
    if hasPlot == "yes" then "Own a plot" else "Planning to buy"
  }

  // ---------------------------------------------------------------------
  // The wizard as a state machine on values

  /** The component's state: the step counter and the record. */
  datatype Session = Session(step: int, data: FormData)

  /** What a user can do on the form's screen: type into or choose in the
      input of a field, press the primary (Continue/Submit) button, press
      Back.  Close is handled by the landing page. */
  datatype Action = Input(field: Field, value: string) | Continue | GoBack

  /** The result of one action: the new state, and the record handed to the
      submission sink, if the action submitted. */
  datatype Outcome = Outcome(session: Session, emitted: Option<FormData>)

  /** 1 <= step <= totalSteps + 1. */
  predicate InRange(s: Session)
  {
    1 <= s.step <= ThankYouStep
  }

  /** Every field whose step the user has already left is set. */
  predicate Answered(s: Session)
  {
    forall f :: FieldStep(f) < s.step ==> Truthy(Get(s.data, f))
  }

  /** What holds of every state a user can reach. */
  predicate Reachable(s: Session)
  {
    InRange(s) && Answered(s)
  }

  /** The state of a freshly mounted form. */
  function Fresh(): (s: Session)
    ensures s.step == 1
    ensures forall f :: Get(s.data, f) == ""
    ensures Reachable(s)
  {
    Session(1, EmptyForm())
  }

  /** Typing into, or choosing in, the input of `f`.  That input exists only
      on the screen of step `FieldStep(f)`; on any other screen there is
      nothing to edit and the state stays as it is. */
  function InputOnScreen(s: Session, f: Field, v: string): (r: Session)
    ensures r.step == s.step
    ensures s.step == FieldStep(f) ==> r.data == Update(s.data, f, v)
    ensures s.step != FieldStep(f) ==> r == s
    ensures Reachable(s) ==> Reachable(r)
  {
    if s.step == FieldStep(f) then Session(s.step, Update(s.data, f, v)) else s
  }

  /** The primary button.  It is shown only while `step <= totalSteps` and is
      disabled unless the step is valid; when pressed it calls `handleSubmit`
      on the review step and `handleNext` on the others. */
  function Primary(s: Session): (o: Outcome)
    ensures o.session.data == s.data
    ensures (s.step > TotalSteps || !IsStepValid(s.step, s.data)) ==> o == Outcome(s, None)
    ensures s.step < TotalSteps && IsStepValid(s.step, s.data) ==>
              o == Outcome(Session(s.step + 1, s.data), None)
    ensures s.step == TotalSteps ==> o == Outcome(Session(ThankYouStep, s.data), Some(s.data))
    ensures o.emitted.Some? <==> s.step == TotalSteps
    ensures Reachable(s) && o.emitted.Some? ==> Complete(o.emitted.value)
    ensures Reachable(s) ==> Reachable(o.session)
  {
    if s.step <= TotalSteps && IsStepValid(s.step, s.data) then
      if s.step == TotalSteps then Outcome(Session(ThankYouStep, s.data), Some(s.data))
      else Outcome(Session(s.step + 1, s.data), None)
    else Outcome(s, None)
  }

  /** The Back button.  It is shown only when `1 < step <= totalSteps` and
      then calls `handleBack`; the record is never touched. */
  function Back(s: Session): (r: Session)
    ensures r.data == s.data
    ensures 1 < s.step <= TotalSteps ==> r.step == s.step - 1
    ensures !(1 < s.step <= TotalSteps) ==> r == s
    ensures Reachable(s) ==> Reachable(r)
  {
    if 1 < s.step <= TotalSteps then Session(s.step - 1, s.data) else s
  }

  /** One user action. */
  function Perform(s: Session, a: Action): (o: Outcome)
    ensures o.emitted.Some? ==> a.Continue? && s.step == TotalSteps && o.emitted.value == s.data
    ensures s.step == ThankYouStep ==> o == Outcome(s, None)
    ensures Reachable(s) ==> Reachable(o.session)
  {
    match a
    case Input(f, v) => Outcome(InputOnScreen(s, f, v), None)
    case Continue => Primary(s)
    case GoBack => Outcome(Back(s), None)
  }

  /** A sequence of actions: the final state and the records submitted on
      the way, in order. */
  datatype Trace = Trace(last: Session, submitted: seq<FormData>)

  function Run(s: Session, acts: seq<Action>): Trace
    decreases |acts|
  {
    if acts == [] then Trace(s, [])
    else
      var o := Perform(s, acts[0]);
      var rest := Run(o.session, acts[1..]);
      var now := if o.emitted.Some? then [o.emitted.value] else [];
      Trace(rest.last, now + rest.submitted)
  }

  /** From any reachable state, a sequence of actions keeps the state
      reachable; it submits exactly once if it enters the thank-you step and
      never otherwise; and what it submits is a complete record, which the
      thank-you step still holds. */
  lemma {:induction false} RunFrom(s: Session, acts: seq<Action>)
    requires Reachable(s)
    ensures Reachable(Run(s, acts).last)
    ensures |Run(s, acts).submitted| ==
              (if s.step != ThankYouStep && Run(s, acts).last.step == ThankYouStep then 1 else 0)
    ensures forall r :: r in Run(s, acts).submitted ==> Complete(r) && r == Run(s, acts).last.data
    decreases |acts|
  {
    if acts != [] {
      var o := Perform(s, acts[0]);
      RunFrom(o.session, acts[1..]);
      if o.emitted.Some? {
        assert o.session.step == ThankYouStep;
        assert Run(o.session, acts[1..]) == Trace(o.session, []) by {
          ThankYouIsFinal(o.session, acts[1..]);
        }
      }
    }
  }

  /** Once on the thank-you step, no action of the form changes anything. */
  lemma {:induction false} ThankYouIsFinal(s: Session, acts: seq<Action>)
    requires s.step == ThankYouStep
    ensures Run(s, acts) == Trace(s, [])
    decreases |acts|
  {
    if acts != [] {
      ThankYouIsFinal(s, acts[1..]);
    }
  }

  /** A whole session of the wizard, from mounting: it submits at most once,
      exactly when it ends on the thank-you screen, and only a record with
      all six fields set. */
  lemma SessionSubmitsOnce(acts: seq<Action>)
    ensures 1 <= Run(Fresh(), acts).last.step <= ThankYouStep
    ensures |Run(Fresh(), acts).submitted| <= 1
    ensures |Run(Fresh(), acts).submitted| == 1 <==> Run(Fresh(), acts).last.step == ThankYouStep
    ensures forall r :: r in Run(Fresh(), acts).submitted ==> Complete(r)
  {
    RunFrom(Fresh(), acts);
  }

  /** A complete walkthrough: contact details, an attempt to continue with
      no plot answer (refused), then plot, city and budget, review and
      submit.  The session ends on the thank-you step having submitted the
      record exactly as entered. */
  lemma Walkthrough()
    ensures var lead := FormData("Ravi", "9876543210", "ravi@example.com",
                                 "yes", "Hyderabad", "1 Crore – 2 Crore");
            Run(Fresh(), [Input(Name, "Ravi"), Input(Phone, "9876543210"),
                          Input(Email, "ravi@example.com"), Continue,
                          Continue,
                          Input(HasPlot, "yes"), Continue,
                          Input(City, "Hyderabad"), Continue,
                          Input(Budget, "1 Crore – 2 Crore"), Continue,
                          Continue])
            == Trace(Session(ThankYouStep, lead), [lead])
  {
    var lead := FormData("Ravi", "9876543210", "ravi@example.com",
                         "yes", "Hyderabad", "1 Crore – 2 Crore");
    var contact := FormData("Ravi", "9876543210", "ravi@example.com", "", "", "");
    var plot := contact.(hasPlot := "yes");
    var city := plot.(city := "Hyderabad");
    var acts := [Input(Name, "Ravi"), Input(Phone, "9876543210"),
                 Input(Email, "ravi@example.com"), Continue,
                 Continue,
                 Input(HasPlot, "yes"), Continue,
                 Input(City, "Hyderabad"), Continue,
                 Input(Budget, "1 Crore – 2 Crore"), Continue,
                 Continue];
    assert Run(Session(5, lead), acts[11..]) == Trace(Session(ThankYouStep, lead), [lead]);
    assert Run(Session(4, lead), acts[10..]) == Run(Session(5, lead), acts[11..]);
    assert Run(Session(4, city), acts[9..]) == Run(Session(4, lead), acts[10..]);
    assert Run(Session(3, city), acts[8..]) == Run(Session(4, city), acts[9..]);
    assert Run(Session(3, plot), acts[7..]) == Run(Session(3, city), acts[8..]);
    assert Run(Session(2, plot), acts[6..]) == Run(Session(3, plot), acts[7..]);
    assert Run(Session(2, contact), acts[5..]) == Run(Session(2, plot), acts[6..]);
    // Scenario: continuing with no plot answer leaves the step at 2.
    assert Run(Session(2, contact), acts[4..]) == Run(Session(2, contact), acts[5..]);
    assert Run(Session(1, contact), acts[3..]) == Run(Session(2, contact), acts[4..]);
    assert Run(Session(1, contact.(email := "")), acts[2..]) == Run(Session(1, contact), acts[3..]);
    assert Run(Session(1, EmptyForm().(name := "Ravi")), acts[1..])
        == Run(Session(1, contact.(email := "")), acts[2..]);
    assert Run(Fresh(), acts) == Run(Session(1, EmptyForm().(name := "Ravi")), acts[1..]);
  }

  /** Going back twice from the city step returns to the contact step with
      the contact details still filled in. */
  lemma BackTwiceKeepsAnswers(d: FormData)
    requires Reachable(Session(3, d))
    ensures Run(Session(3, d), [GoBack, GoBack]) == Trace(Session(1, d), [])
  {
    assert [GoBack, GoBack][1..] == [GoBack];
  }

  // ---------------------------------------------------------------------
  // The component's mutable state

  /** The mounted form component: its two state variables and its handlers.
      The handlers themselves accept any call; the user reaches them only
      through `InputAction`, `PrimaryAction` and `BackAction`, which keep the
      state reachable, so what `PrimaryAction` emits is then a complete
      record. */
  class Wizard {
    var step: int
    var formData: FormData

    function Snapshot(): Session
      reads this
    {
      Session(step, formData)
    }

    ghost predicate Valid()
      reads this
    {
      InRange(Snapshot())
    }

    /** Mounting: step 1 and the empty record, a reachable state. */
    constructor ()
      ensures Valid()
      ensures Reachable(Snapshot())
      ensures Snapshot() == Fresh()
      ensures step == 1 && formData == EmptyForm()
    {
      step := 1;
      formData := EmptyForm();
    }

    /** `handleNext`: advances by one below the review step, else does
        nothing; it checks no validity itself. */
    method HandleNext()
      requires Valid()
      modifies this
      ensures Valid()
      ensures formData == old(formData)
      ensures old(step) < TotalSteps ==> step == old(step) + 1
      ensures old(step) >= TotalSteps ==> step == old(step)
    {
      if step < TotalSteps {
        step := step + 1;
      }
    }

    /** `handleBack`: goes back by one above step 1, else does nothing. */
    method HandleBack()
      requires Valid()
      modifies this
      ensures Valid()
      ensures formData == old(formData)
      ensures old(step) > 1 ==> step == old(step) - 1
      ensures old(step) == 1 ==> step == 1
    {
      if step > 1 {
        step := step - 1;
      }
    }

    /** `handleSubmit`: hands the current record to the submission sink (a
        console log in the component) and moves to the thank-you step. */
    method HandleSubmit() returns (emitted: FormData)
      requires Valid()
      modifies this
      ensures Valid()
      ensures emitted == old(formData)
      ensures formData == old(formData)
      ensures step == ThankYouStep
    {
      emitted := formData;
      step := TotalSteps + 1;
    }

    /** `updateFormData(field, value)`. */
    method UpdateFormData(f: Field, v: string)
      requires Valid()
      modifies this
      ensures Valid()
      ensures step == old(step)
      ensures formData == Update(old(formData), f, v)
    {
      formData := Update(formData, f, v);
    }

    /** A press of the primary button: nothing unless it is shown and
        enabled; then `handleSubmit` on the review step, `handleNext`
        elsewhere. */
    method PrimaryAction() returns (emitted: Option<FormData>)
      requires Valid()
      modifies this
      ensures Valid()
      ensures Outcome(Snapshot(), emitted) == Primary(old(Snapshot()))
      ensures old(Reachable(Snapshot())) ==> Reachable(Snapshot())
      ensures old(Reachable(Snapshot())) && emitted.Some? ==> Complete(emitted.value)
    {
      if step <= TotalSteps && IsStepValid(step, formData) {
        if step == TotalSteps {
          var record := HandleSubmit();
          emitted := Some(record);
        } else {
          HandleNext();
          emitted := None;
        }
      } else {
        emitted := None;
      }
    }

    /** A press of the Back button: only shown when `1 < step <= totalSteps`. */
    method BackAction()
      requires Valid()
      modifies this
      ensures Valid()
      ensures Snapshot() == Back(old(Snapshot()))
      ensures old(Reachable(Snapshot())) ==> Reachable(Snapshot())
    {
      if 1 < step <= TotalSteps {
        HandleBack();
      }
    }

    /** An edit through the input of `f`: that input is rendered only on the
        screen of step `FieldStep(f)`, where it calls `updateFormData`; on
        any other screen there is no such input and nothing changes. */
    method InputAction(f: Field, v: string)
      requires Valid()
      modifies this
      ensures Valid()
      ensures Snapshot() == InputOnScreen(old(Snapshot()), f, v)
      ensures old(Reachable(Snapshot())) ==> Reachable(Snapshot())
    {
      if step == FieldStep(f) {
        UpdateFormData(f, v);
      }
    }
  }
}
