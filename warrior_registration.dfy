/** The Health Warrior registration wizard
    (src/components/WarriorRegistrationForm.tsx): the four-step navigation,
    the progress value, the rules for the Previous/Next/Submit buttons and
    the form-data updates. The submit toast and the rendering are not
    modelled. */
module WarriorRegistration {
  import opened Wrappers

  /** Number of wizard steps. */
  const StepCount := 4

  /** `nextStep`: advance unless on the last step. */
  function NextStepOf(step: int): (r: int)
    ensures step < StepCount ==> r == step + 1
    ensures step >= StepCount ==> r == step
  {
    if step < StepCount then step + 1 else step
  }

  /** `prevStep`: go back unless on the first step. */
  function PrevStepOf(step: int): (r: int)
    ensures step > 1 ==> r == step - 1
    ensures step <= 1 ==> r == step
  {
    if step > 1 then step - 1 else step
  }

  /** `progress = currentStep / steps.length * 100` */
  function Progress(step: int): (p: real)
    ensures 1 <= step <= StepCount ==> 0.0 < p <= 100.0
    ensures p == 100.0 <==> step == StepCount
  {
    step as real / StepCount as real * 100.0
  }

  /** Every step's progress is a quarter multiple: 25, 50, 75 or 100. */
  lemma ProgressIsQuarter(step: int)
    requires 1 <= step <= StepCount
    ensures Progress(step) == 25.0 * step as real
    ensures Progress(step) in {25.0, 50.0, 75.0, 100.0}
  {
  }

  /** A press of Next or Previous. */
  datatype Nav = Next | Prev

  /** The step after a run of presses. */
  function Run(step: int, presses: seq<Nav>): int
    decreases |presses|
  {
    if presses == [] then step
    else Run(if presses[0] == Next then NextStepOf(step) else PrevStepOf(step), presses[1..])
  }

  /** From any step in range, and so from the initial step 1, no run of
      presses leaves 1..4. */
  lemma {:induction false} RunStaysInRange(step: int, presses: seq<Nav>)
    requires 1 <= step <= StepCount
    ensures 1 <= Run(step, presses) <= StepCount
    decreases |presses|
  {
    if presses != [] {
      var next := if presses[0] == Next then NextStepOf(step) else PrevStepOf(step);
      RunStaysInRange(next, presses[1..]);
    }
  }

  /** Three presses of Next from the first step reach the last, and a
      fourth changes nothing. */
  lemma ThreeNextsReachLast()
    ensures Run(1, [Next, Next, Next]) == StepCount
    ensures Run(1, [Next, Next, Next, Next]) == StepCount
  {
    assert [Next, Next, Next][1..] == [Next, Next];
    assert [Next, Next, Next, Next][1..] == [Next, Next, Next];
    assert [Next, Next][1..] == [Next];
    assert [Next][1..] == [];
  }

  /** `disabled={currentStep === 1}` */
  predicate PreviousDisabled(step: int) {
    step == 1
  }

  /** `currentStep < steps.length` shows Next; otherwise Submit. */
  predicate ShowSubmit(step: int) {
    !(step < StepCount)
  }

  /** Within the step range, Previous is disabled exactly when pressing it
      would not move, and Submit replaces Next exactly when pressing Next
      would not move. */
  lemma ButtonsMatchMoves(step: int)
    requires 1 <= step <= StepCount
    ensures PreviousDisabled(step) <==> PrevStepOf(step) == step
    ensures ShowSubmit(step) <==> NextStepOf(step) == step
    ensures ShowSubmit(step) <==> step == StepCount
  {
  }

  /** A value in the form: text from an input, a chosen file, no file yet,
      or the training flag. */
  datatype FieldValue = Text(text: string) | NoFile | File(name: string) | Flag(checked: bool)

  /** The form's initial contents. */
  const InitialForm: map<string, FieldValue> := map[
    "fullName" := Text(""), "dateOfBirth" := Text(""), "gender" := Text(""),
    "phone" := Text(""), "email" := Text(""), "address" := Text(""), "city" := Text(""),
    "state" := Text(""), "pincode" := Text(""), "aadharNumber" := Text(""),
    "aadharFile" := NoFile, "photoFile" := NoFile, "trainingCompleted" := Flag(false)]

  class RegistrationWizard {
    var currentStep: int
    var formData: map<string, FieldValue>

    ghost predicate Valid()
      reads this
    {
      1 <= currentStep <= StepCount
    }

    constructor ()
      ensures Valid() && currentStep == 1 && formData == InitialForm
    {
      currentStep := 1;
      formData := InitialForm;
    }

    method NextStep()
      requires Valid()
      modifies this`currentStep
      ensures Valid() && currentStep == NextStepOf(old(currentStep))
    {
      if currentStep < StepCount {
        currentStep := currentStep + 1;
      }
    }

    method PrevStep()
      requires Valid()
      modifies this`currentStep
      ensures Valid() && currentStep == PrevStepOf(old(currentStep))
    {
      if currentStep > 1 {
        currentStep := currentStep - 1;
      }
    }

    /** `handleInputChange`: the input named `name` takes `value`; every
        other entry is unchanged. */
    method HandleInputChange(name: string, value: string)
      modifies this`formData
      ensures formData == old(formData)[name := Text(value)]
      ensures name in formData && formData[name] == Text(value)
      ensures forall k :: k != name ==> (k in formData <==> k in old(formData))
      ensures forall k :: k != name && k in old(formData) ==> formData[k] == old(formData)[k]
    {
      formData := formData[name := Text(value)];
    }

    /** `handleFileChange`: the field takes the first chosen file; when
        none was chosen nothing changes. */
    method HandleFileChange(fieldName: string, chosen: Option<string>)
      modifies this`formData
      ensures chosen.Some? ==> formData == old(formData)[fieldName := File(chosen.value)]
      ensures chosen.None? ==> formData == old(formData)
    {
      if chosen.Some? {
        formData := formData[fieldName := File(chosen.value)];
      }
    }
  }
}
