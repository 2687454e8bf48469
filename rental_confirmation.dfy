/**
 * The rental booking page (src/pages/RentalConfirmationPage.jsx): the
 * rental's duration and cost, the booking form's validation and the
 * submit. Dates are read through `dayOf`, the day number `new Date(s)`
 * gives a date input's text (`None` for an invalid date).
 */
module RentalConfirmation {
  import opened Basics
  import opened Strings
  import opened RentalStore
  import SignupForm
  import RentalCatalog

  /** The delivery fee: 50 cedis, in pesewas like the tool prices. */
  const DeliveryFee := 5000

  /** The text fields of the form and their initial values; the quantity is kept apart. */
  const InitialDetails: map<string, string> := map[
    "startDate" := "", "endDate" := "", "deliveryOption" := "pickup",
    "contactName" := "", "contactPhone" := "", "contactEmail" := "", "specialInstructions" := ""]

  function Field(details: map<string, string>, name: string): string
  {
    if name in details then details[name] else ""
  }

  /**
   * calculateDuration: 0 while a date is missing; otherwise the whole days
   * between the two dates in either order, at least 1 (an invalid date gives
   * NaN, which also falls back to 1).
   */
  function Duration(startDate: string, endDate: string, dayOf: string -> Option<int>): (r: nat)
    ensures r == 0 <==> startDate == "" || endDate == ""
    ensures startDate != "" && endDate != "" && dayOf(startDate).Some? && dayOf(endDate).Some? ==>
              r >= 1 &&
              (dayOf(endDate).value > dayOf(startDate).value ==> r == dayOf(endDate).value - dayOf(startDate).value) &&
              (dayOf(endDate).value < dayOf(startDate).value ==> r == dayOf(startDate).value - dayOf(endDate).value) &&
              (dayOf(endDate).value == dayOf(startDate).value ==> r == 1)
    ensures startDate != "" && endDate != "" && (dayOf(startDate).None? || dayOf(endDate).None?) ==> r == 1
  {
    if startDate == "" || endDate == "" then 0
    else match (dayOf(startDate), dayOf(endDate))
      case (Some(s), Some(e)) => Max(if e >= s then e - s else s - e, 1)
      case _ => 1
  }

  /** The two dates' order does not matter, and a same-day rental is one day. */
  lemma DurationIsSymmetric(startDate: string, endDate: string, dayOf: string -> Option<int>)
    ensures Duration(startDate, endDate, dayOf) == Duration(endDate, startDate, dayOf)
    ensures startDate != "" && dayOf(startDate).Some? ==> Duration(startDate, startDate, dayOf) == 1
  {
  }

  /** calculateTotalCost: day price times days times quantity, plus the fee for delivery. */
  function TotalCost(tool: Tool, duration: nat, quantity: int, deliveryOption: string): (r: int)
    ensures deliveryOption == "delivery" ==> r == tool.pricePerDay * duration * quantity + DeliveryFee
    ensures deliveryOption != "delivery" ==> r == tool.pricePerDay * duration * quantity
  {
    tool.pricePerDay * duration * quantity + (if deliveryOption == "delivery" then DeliveryFee else 0)
  }

  /** More days or more units never cost less, for tools with a non-negative price. */
  lemma TotalCostMonotone(tool: Tool, d1: nat, d2: nat, q1: int, q2: int, option: string)
    requires tool.pricePerDay >= 0 && d1 <= d2 && 0 <= q1 <= q2
    ensures TotalCost(tool, d1, q1, option) <= TotalCost(tool, d2, q2, option)
  {
    assert tool.pricePerDay * d1 <= tool.pricePerDay * d2 by {
      MulLe(tool.pricePerDay, d1, d2);
    }
    MulLe(tool.pricePerDay * d2, q1, q2);
    MulLe(q1, tool.pricePerDay * d1, tool.pricePerDay * d2);
  }

  lemma MulLe(a: int, b: int, c: int)
    requires a >= 0 && b <= c
    ensures a * b <= a * c
  {
  }

  /**
   * The unanchored `/\S+@\S+\.\S+/`: somewhere a non-space character, an
   * "@", a run of non-space characters, a "." and a non-space character.
   */
  predicate BookingEmailAt(s: string, i: int, j: int)
  {
    && 0 < i && i + 1 < j && j + 1 < |s|
    && s[i] == '@' && s[j] == '.'
    && !IsSpace(s[i - 1]) && !IsSpace(s[j + 1])
    && forall k :: i < k < j ==> !IsSpace(s[k])
  }

  predicate BookingEmailValid(s: string)
  {
    exists i, j :: 0 <= i < |s| && 0 <= j < |s| && BookingEmailAt(s, i, j)
  }

  /** Every address the sign-up form accepts is accepted here. */
  lemma SignupEmailIsBookingEmail(s: string)
    requires SignupForm.SignupEmailValid(s)
    ensures BookingEmailValid(s)
  {
    var i, j :| 0 <= i < |s| && 0 <= j < |s| && SignupForm.SignupEmailSplit(s, i, j);
    assert s[i - 1] == s[..i][i - 1];
    assert s[j + 1] == s[j + 1..][0];
    forall k | i < k < j
      ensures !IsSpace(s[k])
    {
      assert s[k] == s[i + 1..j][k - i - 1];
    }
    assert BookingEmailAt(s, i, j);
  }

  /** The booking pattern is looser: it is not anchored and allows a second "@". */
  lemma BookingEmailIsLooser()
    ensures BookingEmailValid(" a@b.c") && !SignupForm.SignupEmailValid(" a@b.c")
    ensures BookingEmailValid("a@b@c.d") && !SignupForm.SignupEmailValid("a@b@c.d")
  {
    assert BookingEmailAt(" a@b.c", 2, 4);
    assert BookingEmailAt("a@b@c.d", 3, 5);
    var s := " a@b.c";
    forall i, j | 0 <= i < |s| && 0 <= j < |s|
      ensures !SignupForm.SignupEmailSplit(s, i, j)
    {
      if i > 0 {
        assert s[..i][0] == ' ';
      }
    }
    SignupForm.SignupEmailExamples();
  }

  const StartRequired := "Start date is required"
  const EndRequired := "End date is required"
  const EndBeforeStart := "End date must be after start date"
  const NameRequired := "Name is required"
  const PhoneRequired := "Phone number is required"
  const EmailRequired := "Email is required"
  const EmailInvalid := "Email is invalid"

  /** `new Date(start) > new Date(end)`: false as soon as either date is invalid. */
  predicate StartAfterEnd(startDate: string, endDate: string, dayOf: string -> Option<int>)
  {
    dayOf(startDate).Some? && dayOf(endDate).Some? && dayOf(startDate).value > dayOf(endDate).value
  }

  const FieldsChecked: set<string> := {"startDate", "endDate", "contactName", "contactPhone", "contactEmail"}

  /**
   * The message validateForm leaves for one field. The checks run in order
   * and a later one overwrites an earlier one on the same field: dates out
   * of order replace "End date is required" (in a browser `new Date("")` is
   * invalid, so that happens only when `dayOf` reads the empty text as a
   * date), and an email that is set but does not match is reported as
   * invalid.
   */
  function FieldError(details: map<string, string>, dayOf: string -> Option<int>, name: string): (r: Option<string>)
    ensures r.Some? ==> name in FieldsChecked && r.value != ""
    ensures name == "startDate" ==>
              (r.Some? <==> Field(details, "startDate") == "") && (r.Some? ==> r.value == StartRequired)
    ensures name == "endDate" ==>
              (r.Some? <==> Field(details, "endDate") == "" ||
                            StartAfterEnd(Field(details, "startDate"), Field(details, "endDate"), dayOf))
    ensures name == "endDate" && StartAfterEnd(Field(details, "startDate"), Field(details, "endDate"), dayOf) ==>
              r == Some(EndBeforeStart)
    ensures name == "endDate" && r.Some? && !StartAfterEnd(Field(details, "startDate"), Field(details, "endDate"), dayOf) ==>
              r.value == EndRequired
    ensures name == "contactName" ==>
              (r.Some? <==> Field(details, "contactName") == "") && (r.Some? ==> r.value == NameRequired)
    ensures name == "contactPhone" ==>
              (r.Some? <==> Field(details, "contactPhone") == "") && (r.Some? ==> r.value == PhoneRequired)
    ensures name == "contactEmail" ==> (r.Some? <==> !BookingEmailValid(Field(details, "contactEmail")))
    ensures name == "contactEmail" && Field(details, "contactEmail") == "" ==> r == Some(EmailRequired)
    ensures name == "contactEmail" && r.Some? && Field(details, "contactEmail") != "" ==> r.value == EmailInvalid
  {
    if name == "startDate" then
      if Field(details, "startDate") == "" then Some(StartRequired) else None
    else if name == "endDate" then
      if StartAfterEnd(Field(details, "startDate"), Field(details, "endDate"), dayOf) then Some(EndBeforeStart)
      else if Field(details, "endDate") == "" then Some(EndRequired)
      else None
    else if name == "contactName" then
      if Field(details, "contactName") == "" then Some(NameRequired) else None
    else if name == "contactPhone" then
      if Field(details, "contactPhone") == "" then Some(PhoneRequired) else None
    else if name == "contactEmail" then
      if Field(details, "contactEmail") == "" then Some(EmailRequired)
      else if !BookingEmailValid(Field(details, "contactEmail")) then Some(EmailInvalid)
      else None
    else None
  }

  /** validateForm: the map from each failing field to its message. */
  function ValidateForm(details: map<string, string>, dayOf: string -> Option<int>): (errs: map<string, string>)
    ensures "startDate" in errs <==> Field(details, "startDate") == ""
    ensures "endDate" in errs <==>
              Field(details, "endDate") == "" || StartAfterEnd(Field(details, "startDate"), Field(details, "endDate"), dayOf)
    ensures "contactName" in errs <==> Field(details, "contactName") == ""
    ensures "contactPhone" in errs <==> Field(details, "contactPhone") == ""
    ensures "contactEmail" in errs <==> !BookingEmailValid(Field(details, "contactEmail"))
    ensures errs.Keys <= FieldsChecked
    ensures forall k :: k in errs ==> errs[k] != ""
    ensures "startDate" in errs ==> errs["startDate"] == StartRequired
    ensures StartAfterEnd(Field(details, "startDate"), Field(details, "endDate"), dayOf) ==>
              errs["endDate"] == EndBeforeStart
    ensures "endDate" in errs && !StartAfterEnd(Field(details, "startDate"), Field(details, "endDate"), dayOf) ==>
              errs["endDate"] == EndRequired
    ensures "contactName" in errs ==> errs["contactName"] == NameRequired
    ensures "contactPhone" in errs ==> errs["contactPhone"] == PhoneRequired
    ensures "contactEmail" in errs ==>
              errs["contactEmail"] == if Field(details, "contactEmail") == "" then EmailRequired else EmailInvalid
  {
    assert !BookingEmailValid("");
    map k | k in FieldsChecked && FieldError(details, dayOf, k).Some? :: FieldError(details, dayOf, k).value
  }

  /** The form is accepted exactly when both dates are set and in order and
      the contact fields are filled with a plausible email address. */
  lemma AcceptedForms(details: map<string, string>, dayOf: string -> Option<int>)
    ensures ValidateForm(details, dayOf) == map[] <==>
              && Field(details, "startDate") != "" && Field(details, "endDate") != ""
              && !StartAfterEnd(Field(details, "startDate"), Field(details, "endDate"), dayOf)
              && Field(details, "contactName") != "" && Field(details, "contactPhone") != ""
              && BookingEmailValid(Field(details, "contactEmail"))
  {
    var errs := ValidateForm(details, dayOf);
    if errs != map[] {
      var k :| k in errs;
      assert k in FieldsChecked;
    }
  }

  /** The submit button is disabled while submitting and for an unavailable tool. */
  predicate SubmitDisabled(isSubmitting: bool, tool: Tool)
  {
    isSubmitting || !tool.available
  }

  /** A submission under way keeps the button disabled for any tool; when none is
      under way, the button is disabled exactly for the catalog's three unavailable tools. */
  lemma SubmitDisabledGates(tool: Tool)
    ensures SubmitDisabled(true, tool)
    ensures forall k :: 0 <= k < |RentalCatalog.ToolsData| ==>
              (SubmitDisabled(false, RentalCatalog.ToolsData[k]) <==> !RentalCatalog.Availability[k])
  {
    RentalCatalog.AvailabilityOfTools();
  }

  /** The page's form state. */
  class Booking {
    var details: map<string, string>
    var quantity: int
    var errors: map<string, string>
    var isSubmitting: bool
    var showConfirmation: bool

    constructor ()
      ensures details == InitialDetails && quantity == 1 && errors == map[]
      ensures !isSubmitting && !showConfirmation
    {
      details := InitialDetails;
      quantity := 1;
      errors := map[];
      isSubmitting := false;
      showConfirmation := false;
    }

    /** handleChange on a text field: store the value and blank that field's
        error if it showed one (the key stays). */
    method HandleChange(name: string, value: string)
      modifies this`details, this`errors
      ensures details == old(details)[name := value]
      ensures name in old(errors) && old(errors)[name] != "" ==> errors == old(errors)[name := ""]
      ensures !(name in old(errors) && old(errors)[name] != "") ==> errors == old(errors)
    {
      details := details[name := value];
      if name in errors && errors[name] != "" {
        errors := errors[name := ""];
      }
    }

    /** The quantity select, whose options are 1 to 5. */
    method SelectQuantity(q: int)
      requires 1 <= q <= 5
      modifies this`quantity
      ensures quantity == q
    {
      quantity := q;
    }

    /** handleSubmit: show the errors, or start submitting. */
    method HandleSubmit(dayOf: string -> Option<int>)
      modifies this`errors, this`isSubmitting
      ensures ValidateForm(details, dayOf) != map[] ==>
                errors == ValidateForm(details, dayOf) && isSubmitting == old(isSubmitting)
      ensures ValidateForm(details, dayOf) == map[] ==> errors == old(errors) && isSubmitting
    {
      var formErrors := ValidateForm(details, dayOf);
      if formErrors != map[] {
        errors := formErrors;
        return;
      }
      isSubmitting := true;
    }

    /** The simulated request's timer firing. */
    method SubmissionFinished()
      modifies this`isSubmitting, this`showConfirmation
      ensures !isSubmitting && showConfirmation
    {
      isSubmitting := false;
      showConfirmation := true;
    }

  }
}
