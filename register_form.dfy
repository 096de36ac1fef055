/**
 * The three-step registration wizard: a step counter moved by Continue and
 * Back, a record of form fields updated one field at a time, and a loading
 * flag raised while the (simulated) account creation runs.
 */
module RegisterForm {
  /** A form field holds text or a checkbox value. */
  datatype FieldValue = Text(text: string) | Flag(flag: bool)

  const FirstStep: int := 1
  const LastStep: int := 3

  const TextFields: seq<string> := [
    "firstName", "lastName", "email", "password", "confirmPassword", "role",
    "graduationYear", "major", "company", "jobTitle", "location"]

  /** Every text field empty; networking allowed, terms and mentoring not. */
  const InitialFormData: map<string, FieldValue> := map[
    "firstName" := Text(""), "lastName" := Text(""), "email" := Text(""),
    "password" := Text(""), "confirmPassword" := Text(""), "role" := Text(""),
    "graduationYear" := Text(""), "major" := Text(""), "company" := Text(""),
    "jobTitle" := Text(""), "location" := Text(""),
    "agreeToTerms" := Flag(false), "allowNetworking" := Flag(true), "allowMentoring" := Flag(false)]

  datatype WizardState = WizardState(step: int, formData: map<string, FieldValue>, isLoading: bool)

  const InitialWizard: WizardState := WizardState(FirstStep, InitialFormData, false)

  predicate InRange(st: WizardState)
  {
    FirstStep <= st.step <= LastStep
  }

  /**
   * Submitting the form: before the last step it only advances the step; on
   * the last step it starts the account creation by raising the loading flag.
   */
  function Submitted(st: WizardState): (r: WizardState)
    ensures st.step < LastStep ==> r == st.(step := st.step + 1)
    ensures st.step >= LastStep ==> r == st.(isLoading := true)
  {
    if st.step < LastStep then st.(step := st.step + 1) else st.(isLoading := true)
  }

  /** The simulated account creation finished: the loading flag drops, nothing else changes. */
  function Completed(st: WizardState): (r: WizardState)
    ensures r == st.(isLoading := false)
  {
    st.(isLoading := false)
  }

  /** Back, which is shown only after the first step. */
  function SteppedBack(st: WizardState): (r: WizardState)
    requires st.step > FirstStep
    ensures r == st.(step := st.step - 1)
  {
    st.(step := st.step - 1)
  }

  /** One field set to `value`, every other field as it was. */
  function WithField(st: WizardState, field: string, value: FieldValue): (r: WizardState)
    ensures r.step == st.step && r.isLoading == st.isLoading
    ensures field in r.formData && r.formData[field] == value
    ensures forall other :: other != field ==>
      (other in r.formData <==> other in st.formData) &&
      (other in st.formData ==> r.formData[other] == st.formData[other])
  {
    st.(formData := st.formData[field := value])
  }

  /** The caption under the title. */
  function StepCaption(step: int): (r: string)
    ensures step == 1 ==> r == "Basic information"
    ensures step == 2 ==> r == "Profile details"
    ensures step != 1 && step != 2 ==> r == "Preferences"
  {
    if step == 1 then "Basic information" else if step == 2 then "Profile details" else "Preferences"
  }

  /** The submit button's text. */
  function ButtonLabel(step: int, isLoading: bool): (r: string)
    ensures isLoading ==> r == "Creating account..."
    ensures !isLoading && step == LastStep ==> r == "Create account"
    ensures !isLoading && step != LastStep ==> r == "Continue"
  {
    if isLoading then "Creating account..." else if step == LastStep then "Create account" else "Continue"
  }

  predicate ShowsBack(step: int)
  {
    step > FirstStep
  }

  // ---------------------------------------------------------------- properties

  /** Every transition keeps the step within 1..3. */
  lemma TransitionsKeepRange(st: WizardState, field: string, value: FieldValue)
    requires InRange(st)
    ensures InRange(Submitted(st)) && InRange(Completed(st)) && InRange(WithField(st, field, value))
    ensures ShowsBack(st.step) ==> InRange(SteppedBack(st))
  {
  }

  /** Back undoes a Continue, and Continue undoes a Back. */
  lemma BackInvertsContinue(st: WizardState)
    requires InRange(st)
    ensures st.step < LastStep ==> SteppedBack(Submitted(st)) == st
    ensures ShowsBack(st.step) ==> Submitted(SteppedBack(st)) == st
  {
  }

  /**
   * From a fresh form, two submits reach the last step without loading, the
   * third raises the loading flag, and its completion leaves the wizard on
   * the last step with the form data untouched.
   */
  lemma FullRun()
    ensures var twice := Submitted(Submitted(InitialWizard));
      twice.step == LastStep && !twice.isLoading && twice.formData == InitialFormData &&
      ButtonLabel(twice.step, twice.isLoading) == "Create account" &&
      Submitted(twice).isLoading && Submitted(twice).step == LastStep &&
      Completed(Submitted(twice)) == twice
  {
  }

  class Wizard {
    var currentStep: int
    var formData: map<string, FieldValue>
    var isLoading: bool
    var showPassword: bool
    var showConfirmPassword: bool

    function State(): WizardState
      reads this
    {
      WizardState(currentStep, formData, isLoading)
    }

    predicate Valid()
      reads this
    {
      InRange(State())
    }

    constructor ()
      ensures State() == InitialWizard && Valid()
      ensures !showPassword && !showConfirmPassword
    {
      currentStep := FirstStep;
      formData := InitialFormData;
      isLoading := false;
      showPassword := false;
      showConfirmPassword := false;
    }

    /** The synchronous part of `handleSubmit`; the awaited delay ends in `SubmitCompleted`. */
    method HandleSubmit()
      modifies this
      ensures State() == Submitted(old(State()))
      ensures showPassword == old(showPassword) && showConfirmPassword == old(showConfirmPassword)
      ensures old(Valid()) ==> Valid()
    {
      if currentStep < LastStep {
        currentStep := currentStep + 1;
        return;
      }
      isLoading := true;
    }

    /** The 2000 ms delay of `handleSubmit` has elapsed. */
    method SubmitCompleted()
      modifies this
      ensures State() == Completed(old(State()))
      ensures showPassword == old(showPassword) && showConfirmPassword == old(showConfirmPassword)
      ensures old(Valid()) ==> Valid()
    {
      isLoading := false;
    }

    /** The Back button, rendered only after the first step. */
    method Back()
      requires ShowsBack(currentStep)
      modifies this
      ensures State() == SteppedBack(old(State()))
      ensures showPassword == old(showPassword) && showConfirmPassword == old(showConfirmPassword)
      ensures old(Valid()) ==> Valid()
    {
      currentStep := currentStep - 1;
    }

    method HandleInputChange(field: string, value: FieldValue)
      modifies this
      ensures State() == WithField(old(State()), field, value)
      ensures showPassword == old(showPassword) && showConfirmPassword == old(showConfirmPassword)
      ensures old(Valid()) ==> Valid()
    {
      formData := formData[field := value];
    }

    /** The eye icon next to the password. */
    method TogglePassword()
      modifies this
      ensures showPassword == !old(showPassword)
      ensures State() == old(State()) && showConfirmPassword == old(showConfirmPassword)
    {
      showPassword := !showPassword;
    }

    /** The eye icon next to the password confirmation. */
    method ToggleConfirmPassword()
      modifies this
      ensures showConfirmPassword == !old(showConfirmPassword)
      ensures State() == old(State()) && showPassword == old(showPassword)
    {
      showConfirmPassword := !showConfirmPassword;
    }
  }
}
