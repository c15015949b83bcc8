/**
  The sign-up form: its record of fields, the single-field update its
  inputs perform, the four password requirements and the derived
  validity that enables the submit button.
*/
module SignUp {
  import Text

  /** `formData`. */
  datatype Form = Form(
    firstName: string, lastName: string, email: string,
    password: string, confirmPassword: string, agreeToTerms: bool)

  /** The form as first rendered: every text empty, terms not agreed. */
  const InitialForm := Form("", "", "", "", "", false)

  /** The form's field names. */
  datatype Field = FirstName | LastName | Email | Password | ConfirmPassword | AgreeToTerms

  /** A field's value: the text inputs hold strings, the checkbox a boolean. */
  datatype Value = Text(text: string) | Flag(flag: bool)

  /** The value a field currently holds. */
  function FieldValue(form: Form, field: Field): Value {
    match field
    case FirstName => Text(form.firstName)
    case LastName => Text(form.lastName)
    case Email => Text(form.email)
    case Password => Text(form.password)
    case ConfirmPassword => Text(form.confirmPassword)
    case AgreeToTerms => Flag(form.agreeToTerms)
  }

  /** The values each input passes: text for the five text inputs, the checked state for the box. */
  predicate Fits(field: Field, value: Value) {
    if field == AgreeToTerms then value.Flag? else value.Text?
  }

  /**
    `handleInputChange(field, value)`, the spread update
    `{...prev, [field]: value}`: the named field takes the value and every
    other field keeps its own.
  */
  function HandleInputChange(form: Form, field: Field, value: Value): (r: Form)
    requires Fits(field, value)
    ensures FieldValue(r, field) == value
    ensures forall g: Field :: g != field ==> FieldValue(r, g) == FieldValue(form, g)
  {
    match field
    case FirstName => form.(firstName := value.text)
    case LastName => form.(lastName := value.text)
    case Email => form.(email := value.text)
    case Password => form.(password := value.text)
    case ConfirmPassword => form.(confirmPassword := value.text)
    case AgreeToTerms => form.(agreeToTerms := value.flag)
  }

  /** Two changes to different fields can be made in either order. */
  lemma ChangesCommute(form: Form, f: Field, v: Value, g: Field, w: Value)
    requires Fits(f, v) && Fits(g, w) && f != g
    ensures HandleInputChange(HandleInputChange(form, f, v), g, w)
         == HandleInputChange(HandleInputChange(form, g, w), f, v)
  {
    var a := HandleInputChange(HandleInputChange(form, f, v), g, w);
    var b := HandleInputChange(HandleInputChange(form, g, w), f, v);
    assert forall h: Field :: FieldValue(a, h) == FieldValue(b, h);
    assert FieldValue(a, FirstName) == FieldValue(b, FirstName);
    assert FieldValue(a, LastName) == FieldValue(b, LastName);
    assert FieldValue(a, Email) == FieldValue(b, Email);
    assert FieldValue(a, Password) == FieldValue(b, Password);
    assert FieldValue(a, ConfirmPassword) == FieldValue(b, ConfirmPassword);
    assert FieldValue(a, AgreeToTerms) == FieldValue(b, AgreeToTerms);
  }

  /** JavaScript's `/[A-Z]/`, `/[a-z]/` and `/\d/` character classes (ASCII only). */
  predicate IsUpper(c: char) { 'A' <= c <= 'Z' }
  predicate IsLower(c: char) { 'a' <= c <= 'z' }
  predicate IsDigit(c: char) { '0' <= c <= '9' }

  /** Some character of `s` is in the class. */
  predicate HasUpper(s: string) { exists k :: 0 <= k < |s| && IsUpper(s[k]) }
  predicate HasLower(s: string) { exists k :: 0 <= k < |s| && IsLower(s[k]) }
  predicate HasDigit(s: string) { exists k :: 0 <= k < |s| && IsDigit(s[k]) }

  /** One line of the password checklist. */
  datatype Requirement = Requirement(text: string, met: bool)

  /**
    `passwordRequirements`: exactly four, in this order — at least 8
    UTF-16 units (`password.length`), an upper-case letter, a lower-case
    letter, a digit.
  */
  function PasswordRequirements(password: string): (r: seq<Requirement>)
    ensures |r| == 4
    ensures r[0].met <==> Text.Utf16Length(password) >= 8
    ensures r[1].met <==> HasUpper(password)
    ensures r[2].met <==> HasLower(password)
    ensures r[3].met <==> HasDigit(password)
  {
    [Requirement("At least 8 characters", Text.Utf16Length(password) >= 8),
     Requirement("Contains uppercase letter", HasUpper(password)),
     Requirement("Contains lowercase letter", HasLower(password)),
     Requirement("Contains number", HasDigit(password))]
  }

  /** `passwordRequirements.every(req => req.met)`. */
  predicate AllMet(requirements: seq<Requirement>) {
    forall k :: 0 <= k < |requirements| ==> requirements[k].met
  }

  /** `isFormValid`, the conjunction of truthy fields, equal passwords, met requirements and agreement. */
  predicate IsFormValid(form: Form) {
    form.firstName != "" && form.lastName != "" && form.email != ""
    && form.password != "" && form.confirmPassword != ""
    && form.password == form.confirmPassword
    && AllMet(PasswordRequirements(form.password))
    && form.agreeToTerms
  }

  /**
    The form is valid exactly when the three identity fields are filled,
    the two passwords agree, the password is a strong one and the terms
    are agreed.
  */
  lemma FormValidIff(form: Form)
    ensures IsFormValid(form) <==>
              form.firstName != "" && form.lastName != "" && form.email != ""
              && form.password == form.confirmPassword
              && Text.Utf16Length(form.password) >= 8 && HasUpper(form.password) && HasLower(form.password)
              && HasDigit(form.password)
              && form.agreeToTerms
  {
    var r := PasswordRequirements(form.password);
    if Text.Utf16Length(form.password) >= 8 && HasUpper(form.password) && HasLower(form.password) && HasDigit(form.password) {
      assert forall k :: 0 <= k < 4 ==> r[k].met by {
        assert r[0].met && r[1].met && r[2].met && r[3].met;
      }
      assert form.password != "";
    }
    if AllMet(r) {
      assert r[0].met && r[1].met && r[2].met && r[3].met;
    }
  }

  /** The length rule counts UTF-16 units: three letters and digits and three emoji make a long enough password. */
  lemma AstralPasswordLongEnough()
    ensures PasswordRequirements("Ab1\U{1F600}\U{1F600}\U{1F600}")[0].met
  {
    var p := "Ab1\U{1F600}\U{1F600}\U{1F600}";
    assert p[..5] == "Ab1\U{1F600}\U{1F600}" && p[..4] == "Ab1\U{1F600}" && p[..3] == "Ab1";
    assert Text.Utf16Length("Ab1") == 3;
  }

  /** The first rendering has the submit button disabled. */
  lemma InitialFormInvalid()
    ensures !IsFormValid(InitialForm)
  {
  }

  /** "Passwords do not match" is shown when a confirmation is typed and differs. */
  predicate ShowsMismatch(form: Form) {
    form.confirmPassword != "" && form.password != form.confirmPassword
  }

  /** The checklist is rendered once the password is non-empty. */
  predicate ShowsChecklist(form: Form) {
    form.password != ""
  }

  /**
    A form that can be submitted shows neither the mismatch message nor
    an unmet requirement, and does show the checklist.
  */
  lemma ValidFormShowsNoWarning(form: Form)
    requires IsFormValid(form)
    ensures !ShowsMismatch(form) && ShowsChecklist(form)
    ensures forall k :: 0 <= k < 4 ==> PasswordRequirements(form.password)[k].met
  {
  }
}
