/** The three-step "get started" application wizard: a step counter moved by
    the Back and Continue buttons, and a record of form fields updated one key
    at a time by the inputs' change handler. */
module FeedbackForm {

  const FirstStep: int := 1
  const LastStep: int := 3

  /** The step `nextStep` moves to: one further, unless already at the last. */
  function Next(step: int): int {
    if step < LastStep then step + 1 else step
  }

  /** The step `prevStep` moves to: one back, unless already at the first. */
  function Prev(step: int): int {
    if step > FirstStep then step - 1 else step
  }

  predicate InRange(step: int) {
    FirstStep <= step <= LastStep
  }

  /** Going back after going forward, from any step before the last, returns
      to where one started; and the other way round from any step after the
      first. */
  lemma PrevAfterNext(step: int)
    requires FirstStep <= step < LastStep
    ensures Prev(Next(step)) == step
  {
  }

  lemma NextAfterPrev(step: int)
    requires FirstStep < step <= LastStep
    ensures Next(Prev(step)) == step
  {
  }

  /** A click on one of the two navigation buttons. */
  datatype StepEvent = Forward | Back

  /** The step reached after a sequence of clicks. */
  function Run(step: int, events: seq<StepEvent>): int
    decreases |events|
  {
    if events == [] then step
    else Run(if events[0] == Forward then Next(step) else Prev(step), events[1..])
  }

  /** The step stays within 1..3 under any sequence of clicks. */
  lemma {:induction false} RunStaysInRange(step: int, events: seq<StepEvent>)
    requires InRange(step)
    ensures InRange(Run(step, events))
    decreases |events|
  {
    if events != [] {
      RunStaysInRange(if events[0] == Forward then Next(step) else Prev(step), events[1..]);
    }
  }

  function Repeat(e: StepEvent, n: nat): (r: seq<StepEvent>)
    ensures |r| == n && forall i :: 0 <= i < n ==> r[i] == e
  {
    if n == 0 then [] else [e] + Repeat(e, n - 1)
  }

  /** n clicks on Continue advance n steps, stopping at the last one; n clicks
      on Back go back n steps, stopping at the first one. */
  lemma {:induction false} ForwardsSaturate(step: int, n: nat)
    requires InRange(step)
    ensures Run(step, Repeat(Forward, n)) == if step + n <= LastStep then step + n else LastStep
    decreases n
  {
    if n > 0 {
      assert Repeat(Forward, n)[1..] == Repeat(Forward, n - 1);
      ForwardsSaturate(Next(step), n - 1);
    }
  }

  lemma {:induction false} BacksSaturate(step: int, n: nat)
    requires InRange(step)
    ensures Run(step, Repeat(Back, n)) == if step - n >= FirstStep then step - n else FirstStep
    decreases n
  {
    if n > 0 {
      assert Repeat(Back, n)[1..] == Repeat(Back, n - 1);
      BacksSaturate(Prev(step), n - 1);
    }
  }

  /** The forward button shown at the bottom of the form. */
  datatype ForwardButton = Continue | Submit

  /** Which navigation buttons a step shows: Back when past the first step;
      Continue before the last step and Submit on it. */
  datatype NavButtons = NavButtons(back: bool, forward: ForwardButton)

  function ButtonsAt(step: int): NavButtons {
    NavButtons(step > FirstStep, if step < LastStep then Continue else Submit)
  }

  /** The buttons agree with the transitions: Back is offered exactly where
      going back moves, Continue exactly where going forward moves, and Submit
      only on the last step. */
  lemma ButtonsMatchTransitions(step: int)
    requires InRange(step)
    ensures ButtonsAt(step).back <==> Prev(step) != step
    ensures ButtonsAt(step).forward == Continue <==> Next(step) != step
    ensures ButtonsAt(step).forward == Submit <==> step == LastStep
  {
  }

  /** The look of progress circle `num` (1, 2 or 3). */
  datatype Circle = Current | Completed | Pending

  function CircleAt(step: int, num: int): Circle {
    if step == num then Current else if step > num then Completed else Pending
  }

  /** The connector bar drawn before circle `num` (for num > 1) is filled. */
  predicate ConnectorFilled(step: int, num: int) {
    step >= num
  }

  /** On every step exactly one circle is current, namely the step's own; the
      ones before it are completed, the ones after pending; and the connector
      before a circle is filled exactly when that circle is not pending. */
  lemma ProgressConsistent(step: int, num: int)
    requires InRange(step) && 1 <= num <= 3
    ensures CircleAt(step, num) == Current <==> num == step
    ensures CircleAt(step, num) == Completed <==> num < step
    ensures CircleAt(step, num) == Pending <==> num > step
    ensures num > 1 ==> (ConnectorFilled(step, num) <==> CircleAt(step, num) != Pending)
  {
  }

  /** The initial form record: empty strings, except intake 2024 / Fall and a
      budget of 20000. */
  const InitialFormData: map<string, string> := map[
    "firstName" := "",
    "lastName" := "",
    "email" := "",
    "phone" := "",
    "country" := "",
    "educationLevel" := "",
    "studyDestination" := "",
    "programInterest" := "",
    "intakeYear" := "2024",
    "intakeSeason" := "Fall",
    "englishProficiency" := "",
    "budget" := "20000",
    "notes" := ""
  ]

  lemma InitialFormDataDefaults()
    ensures "intakeYear" in InitialFormData && InitialFormData["intakeYear"] == "2024"
    ensures "intakeSeason" in InitialFormData && InitialFormData["intakeSeason"] == "Fall"
    ensures "budget" in InitialFormData && InitialFormData["budget"] == "20000"
  {
  }

  lemma InitialFormDataEmpty(k: string)
    requires k in InitialFormData && k != "intakeYear" && k != "intakeSeason" && k != "budget"
    ensures InitialFormData[k] == ""
  {
  }

  /** The wizard's component state. */
  class GetStartedPage {
    var step: int
    var formData: map<string, string>

    ghost predicate Valid()
      reads this
    {
      InRange(step)
    }

    constructor ()
      ensures Valid() && step == FirstStep && formData == InitialFormData
    {
      step := FirstStep;
      formData := InitialFormData;
    }

    /** `handleChange`: field `name` takes `value` (a new key if it was not
        there), and every other field keeps its value. */
    method HandleChange(name: string, value: string)
      modifies this`formData
      ensures name in formData && formData[name] == value
      ensures formData.Keys == old(formData).Keys + {name}
      ensures forall k :: k in old(formData) && k != name ==> formData[k] == old(formData)[k]
    {
      formData := formData[name := value];
    }

    /** `nextStep`: one step further when before the last step, otherwise
        nothing changes. */
    method NextStep()
      requires Valid()
      modifies this`step
      ensures Valid()
      ensures step == Next(old(step))
      ensures old(step) < LastStep ==> step == old(step) + 1
      ensures old(step) == LastStep ==> step == old(step)
    {
      if step < LastStep {
        step := step + 1;
      }
    }

    /** `prevStep`: one step back when after the first step, otherwise nothing
        changes. */
    method PrevStep()
      requires Valid()
      modifies this`step
      ensures Valid()
      ensures step == Prev(old(step))
      ensures old(step) > FirstStep ==> step == old(step) - 1
      ensures old(step) == FirstStep ==> step == old(step)
    {
      if step > FirstStep {
        step := step - 1;
      }
    }

    /** The navigation buttons rendered for the current step. */
    function Buttons(): (b: NavButtons)
      reads this
      requires Valid()
      ensures b.back <==> step != FirstStep
      ensures b.forward == Submit <==> step == LastStep
    {
      ButtonsAt(step)
    }
  }
}
