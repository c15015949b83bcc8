/**
  The three-step onboarding wizard: the step it is on, the profile the
  first step collects, the buttons that move between steps, and the
  progress indicator drawn from the step number.
*/
module GetStarted {

  /** The number of steps the indicator shows. */
  const StepCount := 3

  /** `formData` of the first step. */
  datatype Profile = Profile(firstName: string, lastName: string, email: string, jobTitle: string, experience: string)

  /** The form's field names. */
  datatype Field = FirstName | LastName | Email | JobTitle | Experience

  /** The value a field currently holds. */
  function FieldValue(profile: Profile, field: Field): string {
    match field
    case FirstName => profile.firstName
    case LastName => profile.lastName
    case Email => profile.email
    case JobTitle => profile.jobTitle
    case Experience => profile.experience
  }

  /** `handleInputChange(field, value)`: the named field takes the value, the others keep theirs. */
  function WithField(profile: Profile, field: Field, value: string): (r: Profile)
    ensures FieldValue(r, field) == value
    ensures forall g: Field :: g != field ==> FieldValue(r, g) == FieldValue(profile, g)
  {
    match field
    case FirstName => profile.(firstName := value)
    case LastName => profile.(lastName := value)
    case Email => profile.(email := value)
    case JobTitle => profile.(jobTitle := value)
    case Experience => profile.(experience := value)
  }

  /** The buttons that call `setStep`; each is rendered on one step only. */
  datatype Button = ContinueToUpload | Back | Continue

  /** Step 1's continue button is enabled once the name and email are filled. */
  predicate CanLeaveAccountSetup(profile: Profile) {
    profile.firstName != "" && profile.lastName != "" && profile.email != ""
  }

  /**
    The step after a press: step 1's continue (when enabled) goes to 2,
    step 2's back and continue go to 1 and 3; a button not on the current
    step, a disabled one, and everything on step 3 leave the step alone.
  */
  function NextStep(step: int, profile: Profile, button: Button): (r: int)
    ensures 1 <= step <= StepCount ==> 1 <= r <= StepCount
    ensures step == 1 ==> (r == 2 <==> button == ContinueToUpload && CanLeaveAccountSetup(profile))
    ensures step == 1 && r != 2 ==> r == 1
    ensures step == 2 ==> (button == Back ==> r == 1) && (button == Continue ==> r == 3)
                          && (button == ContinueToUpload ==> r == 2)
    ensures step == StepCount ==> r == StepCount
  {
    match button
    case ContinueToUpload => if step == 1 && CanLeaveAccountSetup(profile) then 2 else step
    case Back => if step == 2 then 1 else step
    case Continue => if step == 2 then 3 else step
  }

  /** Step 3 is reached only through step 2: no single press jumps from 1 to 3. */
  lemma NoSkippedStep(profile: Profile, button: Button)
    ensures NextStep(1, profile, button) != 3
    ensures NextStep(3, profile, button) == 3
  {
  }

  /** The indicator circle for step `n` is coloured once the wizard has reached it. */
  predicate Highlighted(step: int, n: int) { step >= n }

  /** The circle for step `n` shows a check mark once the wizard is past it. */
  predicate Checked(step: int, n: int) { step > n }

  /** The connector drawn after step `n` (none after the last) is filled once past `n`. */
  predicate ConnectorFilled(step: int, n: int) { n < StepCount && step > n }

  /** How many of the three circles are coloured. */
  function HighlightedCount(step: int): (r: nat)
    ensures r <= StepCount
  {
    (if Highlighted(step, 1) then 1 else 0) + (if Highlighted(step, 2) then 1 else 0)
    + (if Highlighted(step, 3) then 1 else 0)
  }

  /**
    On step `s` exactly the first `s` circles are coloured and the first
    `s - 1` carry a check and a filled connector; a checked circle is
    always coloured.
  */
  lemma ProgressMatchesStep(step: int)
    requires 1 <= step <= StepCount
    ensures HighlightedCount(step) == step
    ensures forall n :: 1 <= n <= StepCount ==> (Checked(step, n) <==> n < step)
    ensures forall n :: 1 <= n <= StepCount ==> (Checked(step, n) ==> Highlighted(step, n))
    ensures forall n :: 1 <= n < StepCount ==> (ConnectorFilled(step, n) <==> Checked(step, n))
  {
  }

  /** The wizard page's state. */
  class Wizard {
    var step: int
    var profile: Profile

    /** The step is one of the three the page renders. */
    predicate Valid()
      reads this
    {
      1 <= step <= StepCount
    }

    constructor ()
      ensures Valid() && step == 1
      ensures profile == Profile("", "", "", "", "")
    {
      step := 1;
      profile := Profile("", "", "", "", "");
    }

    /** An input's `onChange`: the profile changes in one field, the step not at all. */
    method HandleInputChange(field: Field, value: string)
      modifies this
      ensures profile == WithField(old(profile), field, value)
      ensures step == old(step)
    {
      profile := WithField(profile, field, value);
    }

    /** A button press; the step stays in range. */
    method Press(button: Button)
      requires Valid()
      modifies this
      ensures Valid()
      ensures step == NextStep(old(step), old(profile), button)
      ensures profile == old(profile)
    {
      if button == ContinueToUpload && step == 1 && CanLeaveAccountSetup(profile) {
        step := 2;
      } else if button == Back && step == 2 {
        step := 1;
      } else if button == Continue && step == 2 {
        step := 3;
      }
    }
  }
}
