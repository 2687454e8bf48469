/**
 * The sign-up wizard (src/pages/SignupForm.jsx): a form of named fields,
 * three validated steps (credentials, profile, address) before a
 * preferences step, and the submit that moves to the success step. The
 * backend calls of the submit are replaced by their outcome.
 */
module SignupForm {
  import opened Basics
  import opened Strings

  /** A form value: the text of an input or the state of a checkbox. */
  datatype FormValue = Text(text: string) | Checked(on: bool)

  type Form = map<string, FormValue>

  /** JavaScript truthiness of a field: a non-empty text or a ticked box. */
  predicate Filled(form: Form, name: string)
  {
    name in form && match form[name]
      case Text(t) => t != ""
      case Checked(b) => b
  }

  /** The text of a field, "" for anything else. */
  function TextOf(form: Form, name: string): string
  {
    if name in form && form[name].Text? then form[name].text else ""
  }

  /** The form's initial contents. */
  const InitialForm: Form := map[
    "email" := Text(""), "password" := Text(""), "confirmPassword" := Text(""),
    "firstName" := Text(""), "lastName" := Text(""), "displayName" := Text(""),
    "phoneNumber" := Text(""), "birthDate" := Text(""),
    "addressLine1" := Text(""), "addressLine2" := Text(""), "city" := Text(""),
    "state" := Text(""), "postalCode" := Text(""), "country" := Text(""),
    "addressType" := Text("both"),
    "marketingEmails" := Checked(true), "orderUpdates" := Checked(true), "newsletter" := Checked(false)]

  /** handleChange: the named field takes the input's value, or `checked` for a checkbox. */
  function Changed(form: Form, name: string, value: string, isCheckbox: bool, checked: bool): (r: Form)
    ensures r.Keys == form.Keys + {name}
    ensures r[name] == if isCheckbox then Checked(checked) else Text(value)
    ensures forall k :: k in form && k != name ==> r[k] == form[k]
  {
    form[name := if isCheckbox then Checked(checked) else Text(value)]
  }

  predicate NoSpaceOrAt(s: string)
  {
    forall k :: 0 <= k < |s| ==> !IsSpace(s[k]) && s[k] != '@'
  }

  /**
   * `/^[^\s@]+@[^\s@]+\.[^\s@]+$/` matches with the "@" at `i` and the
   * "." at `j`: three non-empty runs free of white space and "@".
   */
  predicate SignupEmailSplit(s: string, i: int, j: int)
  {
    && 0 < i && i + 1 < j < |s| - 1
    && s[i] == '@' && s[j] == '.'
    && NoSpaceOrAt(s[..i]) && NoSpaceOrAt(s[i + 1..j]) && NoSpaceOrAt(s[j + 1..])
  }

  predicate SignupEmailValid(s: string)
  {
    exists i, j :: 0 <= i < |s| && 0 <= j < |s| && SignupEmailSplit(s, i, j)
  }

  /** `r` holds a "." that is neither its first nor its last character. */
  predicate HasInnerDot(r: string)
  {
    exists j :: 0 < j < |r| - 1 && r[j] == '.'
  }

  /** `s` is `L@R` with the "@" at `i`, `L` non-empty, and both parts free of
      white space and "@". */
  predicate LocalAtDomain(s: string, i: int)
  {
    0 < i < |s| && s[i] == '@' && NoSpaceOrAt(s[..i]) && NoSpaceOrAt(s[i + 1..])
  }

  /**
   * The same pattern read as `L@R`: `L` is non-empty and free of white space
   * and "@", `R` is free of both and holds a "." that is neither its first
   * nor its last character.
   */
  lemma SplitIsLocalAtDomain(s: string, i: int, j: int)
    requires SignupEmailSplit(s, i, j)
    ensures LocalAtDomain(s, i) && HasInnerDot(s[i + 1..])
  {
    var r := s[i + 1..];
    forall k | 0 <= k < |r|
      ensures !IsSpace(r[k]) && r[k] != '@'
    {
      if k < j - i - 1 {
        assert r[k] == s[i + 1..j][k];
      } else if k > j - i - 1 {
        assert r[k] == s[j + 1..][k - (j - i)];
      }
    }
    assert r[j - i - 1] == '.';
  }

  lemma LocalAtDomainIsSplit(s: string, i: int, j: int)
    requires LocalAtDomain(s, i)
    requires 0 < j < |s[i + 1..]| - 1 && s[i + 1..][j] == '.'
    ensures SignupEmailSplit(s, i, i + 1 + j)
  {
    var r := s[i + 1..];
    var k := i + 1 + j;
    assert s[i + 1..k] == r[..j];
    assert s[k + 1..] == r[j + 1..];
  }

  lemma SignupEmailAsLocalAndDomain(s: string)
    ensures SignupEmailValid(s) <==>
              exists i :: 0 <= i < |s| && LocalAtDomain(s, i) && HasInnerDot(s[i + 1..])
  {
    if SignupEmailValid(s) {
      var i, j :| 0 <= i < |s| && 0 <= j < |s| && SignupEmailSplit(s, i, j);
      SplitIsLocalAtDomain(s, i, j);
    }
    if exists i :: 0 <= i < |s| && LocalAtDomain(s, i) && HasInnerDot(s[i + 1..]) {
      var i :| 0 <= i < |s| && LocalAtDomain(s, i) && HasInnerDot(s[i + 1..]);
      var j :| 0 < j < |s[i + 1..]| - 1 && s[i + 1..][j] == '.';
      LocalAtDomainIsSplit(s, i, j);
    }
  }

  /** Examples: one "@" and a dot inside the domain pass; a dot right after
      the "@", a trailing dot and a second "@" fail. */
  lemma SignupEmailExamples()
    ensures SignupEmailValid("a@b.c")
    ensures !SignupEmailValid("a@.c")
    ensures !SignupEmailValid("a@b.")
    ensures !SignupEmailValid("a@b@c.d")
  {
    assert SignupEmailSplit("a@b.c", 1, 3);
    var bad3 := "a@b@c.d";
    forall i, j | 0 <= i < |bad3| && 0 <= j < |bad3|
      ensures !SignupEmailSplit(bad3, i, j)
    {
      if i == 1 && j > 3 {
        assert bad3[i + 1..j][1] == '@';
      } else if i == 3 {
        assert bad3[..i][1] == '@';
      }
    }
  }

  /** `/^\+?[0-9]{10,15}$/`. */
  predicate PhoneValid(s: string)
  {
    var digits := if s != [] && s[0] == '+' then s[1..] else s;
    AllDigits(digits) && 10 <= |digits| <= 15
  }

  const AllFieldsRequired := "All fields are required"
  const InvalidEmail := "Please enter a valid email address"
  const PasswordTooShort := "Password must be at least 8 characters long"
  const PasswordsDiffer := "Passwords do not match"
  const NamesRequired := "First and last name are required"
  const InvalidPhone := "Please enter a valid phone number"
  const AddressRequired := "Address, city, state, postal code, and country are required"

  /** validateStep1: the first failing check's message, or `None`. */
  function ValidateStep1(form: Form): (r: Option<string>)
    ensures r == None <==>
              Filled(form, "email") && Filled(form, "password") && Filled(form, "confirmPassword") &&
              SignupEmailValid(TextOf(form, "email")) && |TextOf(form, "password")| >= 8 &&
              form["password"] == form["confirmPassword"]
    ensures r == Some(AllFieldsRequired) <==>
              !(Filled(form, "email") && Filled(form, "password") && Filled(form, "confirmPassword"))
    ensures (Filled(form, "email") && Filled(form, "password") && Filled(form, "confirmPassword") &&
             !SignupEmailValid(TextOf(form, "email"))) ==> r == Some(InvalidEmail)
    ensures (Filled(form, "email") && Filled(form, "password") && Filled(form, "confirmPassword") &&
             SignupEmailValid(TextOf(form, "email")) && |TextOf(form, "password")| < 8) ==> r == Some(PasswordTooShort)
    ensures (Filled(form, "email") && Filled(form, "password") && Filled(form, "confirmPassword") &&
             SignupEmailValid(TextOf(form, "email")) && |TextOf(form, "password")| >= 8 &&
             form["password"] != form["confirmPassword"]) ==> r == Some(PasswordsDiffer)
  {
    if !Filled(form, "email") || !Filled(form, "password") || !Filled(form, "confirmPassword") then Some(AllFieldsRequired)
    else if !SignupEmailValid(TextOf(form, "email")) then Some(InvalidEmail)
    else if |TextOf(form, "password")| < 8 then Some(PasswordTooShort)
    else if form["password"] != form["confirmPassword"] then Some(PasswordsDiffer)
    else None
  }

  /** validateStep2: both names, and a phone number only when one is given. */
  function ValidateStep2(form: Form): (r: Option<string>)
    ensures r == None <==>
              Filled(form, "firstName") && Filled(form, "lastName") &&
              (!Filled(form, "phoneNumber") || PhoneValid(TextOf(form, "phoneNumber")))
    ensures r == Some(InvalidPhone) ==> Filled(form, "phoneNumber")
    ensures !Filled(form, "firstName") || !Filled(form, "lastName") ==> r == Some(NamesRequired)
    ensures Filled(form, "firstName") && Filled(form, "lastName") && r.Some? ==> r == Some(InvalidPhone)
  {
    if !Filled(form, "firstName") || !Filled(form, "lastName") then Some(NamesRequired)
    else if Filled(form, "phoneNumber") && !PhoneValid(TextOf(form, "phoneNumber")) then Some(InvalidPhone)
    else None
  }

  /** validateStep3: every address field but the second line is required. */
  function ValidateStep3(form: Form): (r: Option<string>)
    ensures r == None <==>
              Filled(form, "addressLine1") && Filled(form, "city") && Filled(form, "state") &&
              Filled(form, "postalCode") && Filled(form, "country")
    ensures r == None || r == Some(AddressRequired)
  {
    if !Filled(form, "addressLine1") || !Filled(form, "city") || !Filled(form, "state") ||
       !Filled(form, "postalCode") || !Filled(form, "country")
    then Some(AddressRequired)
    else None
  }

  /** The optional second address line never decides step 3. */
  lemma AddressLine2IsOptional(form: Form, v: FormValue)
    ensures ValidateStep3(form["addressLine2" := v]) == ValidateStep3(form)
  {
  }

  /** The check nextStep runs for a step; steps 4 and later have none. */
  function StepCheck(step: int, form: Form): Option<string>
  {
    if step == 1 then ValidateStep1(form)
    else if step == 2 then ValidateStep2(form)
    else if step == 3 then ValidateStep3(form)
    else None
  }

  /** An empty display name defaults to first name, a space and last name. */
  function DisplayName(form: Form): (r: string)
    ensures Filled(form, "displayName") && form["displayName"].Text? ==> r == TextOf(form, "displayName")
    ensures !Filled(form, "displayName") ==> r == TextOf(form, "firstName") + " " + TextOf(form, "lastName")
  {
    if Filled(form, "displayName") then TextOf(form, "displayName")
    else TextOf(form, "firstName") + " " + TextOf(form, "lastName")
  }

  const SuccessStep := 5
  const SignupFailed := "An error occurred during sign up"

  /** The wizard's state. */
  class Wizard {
    var step: int
    var form: Form
    var error: Option<string>
    var success: bool

    ghost predicate Valid()
      reads this
    {
      1 <= step <= SuccessStep && (success <==> step == SuccessStep)
    }

    constructor ()
      ensures step == 1 && form == InitialForm && error == None && !success && Valid()
    {
      step := 1;
      form := InitialForm;
      error := None;
      success := false;
    }

    method HandleChange(name: string, value: string, isCheckbox: bool, checked: bool)
      modifies this`form
      ensures form == Changed(old(form), name, value, isCheckbox, checked)
    {
      form := Changed(form, name, value, isCheckbox, checked);
    }

    /**
     * nextStep: a failing check stores its message and stays; otherwise a
     * step below 4 moves on by one and clears the error.
     */
    method NextStep()
      requires Valid()
      modifies this`step, this`error
      ensures Valid()
      ensures StepCheck(old(step), form).Some? ==> step == old(step) && error == StepCheck(old(step), form)
      ensures StepCheck(old(step), form).None? && old(step) < 4 ==> step == old(step) + 1 && error == None
      ensures StepCheck(old(step), form).None? && old(step) >= 4 ==> step == old(step) && error == old(error)
    {
      var check := StepCheck(step, form);
      if check.Some? {
        error := check;
      } else if step < 4 {
        step := step + 1;
        error := None;
      }
    }

    /** prevStep: back one step, clearing the error, unless on step 1. */
    method PrevStep()
      requires Valid() && !success
      modifies this`step, this`error
      ensures Valid()
      ensures old(step) > 1 ==> step == old(step) - 1 && error == None
      ensures old(step) <= 1 ==> step == old(step) && error == old(error)
    {
      if step > 1 {
        step := step - 1;
        error := None;
      }
    }

    /**
     * handleSubmit, given the outcome of the backend calls: `None` when all
     * succeed, otherwise the error's message ("" when it has none).
     */
    method Submit(failure: Option<string>)
      requires Valid()
      modifies this`step, this`error, this`success
      ensures Valid()
      ensures failure.None? ==> success && step == SuccessStep && error == None
      ensures failure.Some? ==> step == old(step) && success == old(success) &&
                                error == Some(if failure.value != "" then failure.value else SignupFailed)
    {
      error := None;
      match failure
      case None =>
        success := true;
        step := SuccessStep;
      case Some(m) =>
        error := Some(if m != "" then m else SignupFailed);
    }
  }

  /**
   * Steps only advance through checks that passed: leaving step 1 needs
   * valid credentials, leaving step 2 a valid profile, leaving step 3 a
   * complete address.
   */
  lemma AdvancingNeedsValidStep(step: int, form: Form)
    requires 1 <= step <= 3
    requires StepCheck(step, form).None?
    ensures step == 1 ==> SignupEmailValid(TextOf(form, "email")) && |TextOf(form, "password")| >= 8
    ensures step == 2 ==> Filled(form, "firstName") && Filled(form, "lastName")
    ensures step == 3 ==> Filled(form, "addressLine1") && Filled(form, "country")
  {
  }
}
