/**
 * The admin "Add New Rental Item" wizard (src/admin/AddRentals.jsx): four
 * steps of form fields, then a preview from which the item is added; the
 * form is reset after adding.
 */
module AdminAddRentals {

  /** A form value: text, a checkbox or a number. */
  datatype Value = Text(text: string) | Flag(on: bool) | Number(n: int)

  type FormData = map<string, Value>

  const InitialForm: FormData := map[
    "name" := Text(""), "category" := Text(""), "subcategory" := Text(""), "image" := Text(""),
    "rating" := Number(0), "reviewCount" := Number(0), "pricePerDay" := Number(0),
    "available" := Flag(true), "location" := Text(""), "description" := Text("")]

  /** The fixed address handleImageChange stores, whatever file was chosen. */
  const PlaceholderImage :=
    "https://encrypted-tbn0.gstatic.com/images?q=tbn:ANd9GcSNhcnLKeEcUCuQH61I6vuEk6nIoJzga0rJYg&s"

  const LastStep := 4

  /** What the wizard shows: the preview, or the form of a step. */
  datatype Screen = Preview | StepForm(step: int)

  function ScreenOf(step: int, preview: bool): (s: Screen)
    ensures preview <==> s == Preview
  {
    if preview then Preview else StepForm(step)
  }

  /** handleNext: one step on, or the preview from the last step. */
  function Next(step: int, preview: bool): (r: (int, bool))
    ensures step < LastStep ==> r == (step + 1, preview)
    ensures step >= LastStep ==> r == (step, true)
  {
    if step < LastStep then (step + 1, preview) else (step, true)
  }

  /** handleBack as written: one step back when above step 1, and the preview flag is left as it is. */
  function Back(step: int, preview: bool): (r: (int, bool))
    ensures step > 1 ==> r == (step - 1, preview)
    ensures step <= 1 ==> r == (step, preview)
  {
    if step > 1 then (step - 1, preview) else (step, preview)
  }

  /** The Back button is disabled only on step 1 outside the preview. */
  predicate BackDisabled(step: int, preview: bool)
  {
    step == 1 && !preview
  }

  /**
   * Back is enabled in the preview, but it only lowers the hidden step: the
   * preview stays on screen, and "Edit Details" then opens step 3 rather
   * than the step 4 the preview came from.
   */
  lemma BackInPreviewIsInvisible()
    ensures !BackDisabled(4, true)
    ensures ScreenOf(Back(4, true).0, Back(4, true).1) == ScreenOf(4, true)
    ensures ScreenOf(Back(4, true).0, false) == StepForm(3)
  {
  }

  /** Back leaving the preview first, and stepping back only from a step form. */
  function BackCorrected(step: int, preview: bool): (r: (int, bool))
    ensures preview ==> r == (step, false)
    ensures !preview && step > 1 ==> r == (step - 1, false)
    ensures !preview && step <= 1 ==> r == (step, false)
  {
    if preview then (step, false) else if step > 1 then (step - 1, false) else (step, false)
  }

  /** With the correction every enabled Back changes the screen, and from the
      preview it returns to the step the preview came from. */
  lemma BackCorrectedChangesScreen(step: int, preview: bool)
    requires 1 <= step <= LastStep && !BackDisabled(step, preview)
    ensures ScreenOf(BackCorrected(step, preview).0, BackCorrected(step, preview).1) != ScreenOf(step, preview)
    ensures preview ==> ScreenOf(BackCorrected(step, preview).0, BackCorrected(step, preview).1) == StepForm(step)
  {
  }

  /** Next and Back keep the step in 1..4, and from step 1 four clicks on
      Next reach the preview. */
  lemma StepsStayInRange(step: int, preview: bool)
    requires 1 <= step <= LastStep
    ensures 1 <= Next(step, preview).0 <= LastStep
    ensures 1 <= Back(step, preview).0 <= LastStep
    ensures 1 <= BackCorrected(step, preview).0 <= LastStep
    ensures var s1 := Next(1, false); var s2 := Next(s1.0, s1.1); var s3 := Next(s2.0, s2.1);
            s3 == (4, false) && Next(s3.0, s3.1) == (4, true)
  {
  }

  /** A marker of the step indicator. */
  datatype Marker = Current | Done | Upcoming

  function MarkerOf(step: int, currentStep: int): (m: Marker)
    ensures m == Done <==> step < currentStep
    ensures m == Current <==> step == currentStep
  {
    if step == currentStep then Current else if step < currentStep then Done else Upcoming
  }

  /** On step `c` exactly the steps before it are ticked and one step is current. */
  lemma IndicatorShowsProgress(c: int)
    requires 1 <= c <= LastStep
    ensures forall s :: 1 <= s <= LastStep ==> (MarkerOf(s, c) == Done <==> s < c)
    ensures forall s :: 1 <= s <= LastStep && MarkerOf(s, c) == Current ==> s == c
  {
  }

  /** The wizard state. */
  class Wizard {
    var currentStep: int
    var formData: FormData
    var preview: bool

    ghost predicate Valid()
      reads this
    {
      1 <= currentStep <= LastStep
    }

    constructor ()
      ensures currentStep == 1 && formData == InitialForm && !preview && Valid()
    {
      currentStep := 1;
      formData := InitialForm;
      preview := false;
    }

    /** handleInputChange: the checkbox state or the text, under the input's name. */
    method HandleInputChange(name: string, value: string, isCheckbox: bool, checked: bool)
      modifies this`formData
      ensures formData == old(formData)[name := if isCheckbox then Flag(checked) else Text(value)]
    {
      formData := formData[name := if isCheckbox then Flag(checked) else Text(value)];
    }

    method HandleImageChange()
      modifies this`formData
      ensures formData == old(formData)["image" := Text(PlaceholderImage)]
    {
      formData := formData["image" := Text(PlaceholderImage)];
    }

    method HandleNext()
      requires Valid()
      modifies this`currentStep, this`preview
      ensures (currentStep, preview) == Next(old(currentStep), old(preview)) && Valid()
    {
      if currentStep < LastStep {
        currentStep := currentStep + 1;
      } else {
        preview := true;
      }
    }

    method HandleBack()
      requires Valid()
      modifies this`currentStep
      ensures (currentStep, preview) == Back(old(currentStep), preview) && Valid()
    {
      if currentStep > 1 {
        currentStep := currentStep - 1;
      }
    }

    /** "Edit Details" in the preview. */
    method EditDetails()
      modifies this`preview
      ensures !preview
    {
      preview := false;
    }

    /** handleSubmit (the "Add Item" button): the form, the step and the preview are reset. */
    method HandleSubmit()
      modifies this`formData, this`currentStep, this`preview
      ensures formData == InitialForm && currentStep == 1 && !preview && Valid()
    {
      formData := InitialForm;
      currentStep := 1;
      preview := false;
    }
  }
}
