/** The zone registration wizard: four steps navigated with Next and Previous, a
    progress bar, and the form the steps fill in. Submission itself (the request to
    the registration endpoint) is not part of this module: Next on the last step
    only reports that it submits. */
module RegisterPage {
  import opened Outcomes

  // ---------------------------------------------------------------------------
  // Steps
  // ---------------------------------------------------------------------------

  const StepCount: int := 4

  const FirstStep: int := 1

  predicate ValidStep(step: int)
  {
    FirstStep <= step <= StepCount
  }

  datatype StepTitle = ZoneInformation | LocationAndBoundaries | VerificationDocuments | BaselineMetrics

  function Title(step: int): StepTitle
    requires ValidStep(step)
  {
    if step == 1 then ZoneInformation
    else if step == 2 then LocationAndBoundaries
    else if step == 3 then VerificationDocuments
    else BaselineMetrics
  }

  /** What pressing Next does: move on one step, or submit on the last step. */
  datatype NextOutcome = NextOutcome(step: int, submits: bool)

  function NextStep(step: int): (r: NextOutcome)
    ensures step < StepCount ==> r.step == step + 1 && !r.submits
    ensures step >= StepCount ==> r.step == step && r.submits
    ensures ValidStep(step) ==> ValidStep(r.step)
  {
    if step < StepCount then NextOutcome(step + 1, false) else NextOutcome(step, true)
  }

  /** What pressing Previous does: move back one step, or nothing on the first step. */
  function PrevStep(step: int): (r: int)
    ensures step > FirstStep ==> r == step - 1
    ensures step <= FirstStep ==> r == step
    ensures ValidStep(step) ==> ValidStep(r)
  {
    if step > FirstStep then step - 1 else step
  }

  /** Previous undoes Next on every step but the last. */
  lemma PrevUndoesNext(step: int)
    requires ValidStep(step) && step < StepCount
    ensures PrevStep(NextStep(step).step) == step
  {
  }

  /** Next undoes Previous on every step but the first. */
  lemma NextUndoesPrev(step: int)
    requires ValidStep(step) && step > FirstStep
    ensures NextStep(PrevStep(step)) == NextOutcome(step, false)
  {
  }

  datatype Button = Next | Previous

  /** The step reached by pressing the buttons in order from `step`. */
  function Run(step: int, presses: seq<Button>): int
    decreases |presses|
  {
    if |presses| == 0 then step
    else
      var after := if presses[0] == Next then NextStep(step).step else PrevStep(step);
      Run(after, presses[1..])
  }

  /** However the buttons are pressed, the wizard stays on one of its four steps. */
  lemma {:induction false} RunStaysInRange(step: int, presses: seq<Button>)
    requires ValidStep(step)
    ensures ValidStep(Run(step, presses))
    decreases |presses|
  {
    if |presses| > 0 {
      var after := if presses[0] == Next then NextStep(step).step else PrevStep(step);
      RunStaysInRange(after, presses[1..]);
    }
  }

  /** Three presses of Next take the wizard from the first step to the last, and
      only a fourth submits. */
  lemma ThreeNextsReachTheLastStep()
    ensures Run(FirstStep, [Next, Next, Next]) == StepCount
    ensures NextStep(Run(FirstStep, [Next, Next, Next])).submits
  {
    assert [Next, Next, Next][1..] == [Next, Next];
    assert [Next, Next][1..] == [Next];
    assert [Next][1..] == [];
  }

  /** The width of the progress bar in percent. */
  function Progress(step: int): (percent: real)
    ensures ValidStep(step) ==> 0.0 < percent <= 100.0
    ensures ValidStep(step) ==> (percent == 100.0 <==> step == StepCount)
  {
    step as real / StepCount as real * 100.0
  }

  /** Progress grows with every step forward. */
  lemma ProgressIncreases(step: int)
    requires ValidStep(step) && step < StepCount
    ensures Progress(step) < Progress(NextStep(step).step)
  {
  }

  datatype NextLabel = Processing | SubmitRegistration | NextStepLabel

  /** The label of the Next button. */
  function NextButtonLabel(step: int, isSubmitting: bool): (shown: NextLabel)
    ensures shown == SubmitRegistration <==> !isSubmitting && step == StepCount
    ensures shown == Processing <==> isSubmitting
  {
    if isSubmitting then Processing
    else if step == StepCount then SubmitRegistration
    else NextStepLabel
  }

  /** The button reads "Submit Registration" exactly when pressing it submits. */
  lemma SubmitLabelMatchesSubmission(step: int)
    requires ValidStep(step)
    ensures NextButtonLabel(step, false) == SubmitRegistration <==> NextStep(step).submits
  {
  }

  /** Previous is disabled on the first step, where it would do nothing. */
  function PrevDisabled(step: int): (disabled: bool)
    ensures ValidStep(step) ==> (disabled <==> PrevStep(step) == step)
  {
    step == FirstStep
  }

  // ---------------------------------------------------------------------------
  // Form
  // ---------------------------------------------------------------------------

  /** The sixteen text inputs of the form, by their `name` attribute. */
  datatype TextField =
    | ZoneName | Description | OwnerName | OwnerType | Email | Phone
    | Latitude | Longitude | Area | Country | Region
    | CurrentCarbonStock | SpeciesCount | WaterQualityIndex | SoilOrganicMatter | ExistingCertifications

  /** The three file inputs. */
  datatype FileField = OwnershipDoc | SatelliteImage | AdditionalDocs

  datatype File = File(name: string, size: nat)

  datatype Form = Form(
    text: map<TextField, string>,
    ownershipDoc: Option<File>,
    satelliteImage: Option<File>,
    additionalDocs: seq<File>)

  /** Every text field has a value. */
  predicate WellFormed(form: Form)
  {
    forall f: TextField :: f in form.text
  }

  /** The empty form: every field blank except the owner type, which starts as
      "individual". */
  const InitialForm: Form :=
    Form(map f: TextField :: if f == OwnerType then "individual" else "", None, None, [])

  /** Typing into an input sets that field to the input's value. */
  function HandleInputChange(form: Form, field: TextField, value: string): (after: Form)
    ensures WellFormed(form) ==> WellFormed(after)
    ensures field in after.text && after.text[field] == value
    ensures forall f: TextField | f != field ::
      (f in after.text <==> f in form.text) && (f in form.text ==> after.text[f] == form.text[f])
    ensures after.ownershipDoc == form.ownershipDoc && after.satelliteImage == form.satelliteImage
    ensures after.additionalDocs == form.additionalDocs
  {
    form.(text := form.text[field := value])
  }

  /** The last value typed into a field wins. */
  lemma LastInputWins(form: Form, field: TextField, first: string, second: string)
    ensures HandleInputChange(HandleInputChange(form, field, first), field, second)
            == HandleInputChange(form, field, second)
  {
  }

  /** Edits of different fields do not interfere. */
  lemma InputsCommute(form: Form, f1: TextField, v1: string, f2: TextField, v2: string)
    requires f1 != f2
    ensures HandleInputChange(HandleInputChange(form, f1, v1), f2, v2)
            == HandleInputChange(HandleInputChange(form, f2, v2), f1, v1)
  {
  }

  /** A file input's selection: `None` when the browser reports no file list. Extra
      documents are appended in order; another field takes the first file; an
      empty selection changes nothing. */
  function HandleFileUpload(form: Form, selection: Option<seq<File>>, field: FileField): (after: Form)
    ensures after.text == form.text
    ensures selection.None? || selection.value == [] ==> after == form
    ensures selection.Some? && selection.value != [] ==>
      match field
      case AdditionalDocs =>
        after == form.(additionalDocs := form.additionalDocs + selection.value)
      case OwnershipDoc =>
        after == form.(ownershipDoc := Some(selection.value[0]))
      case SatelliteImage =>
        after == form.(satelliteImage := Some(selection.value[0]))
  {
    if selection.None? || |selection.value| == 0 then form
    else
      var files := selection.value;
      match field
      case AdditionalDocs => form.(additionalDocs := form.additionalDocs + files)
      case OwnershipDoc => form.(ownershipDoc := Some(files[0]))
      case SatelliteImage => form.(satelliteImage := Some(files[0]))
  }

  /** Uploads only ever add documents: every earlier extra document stays, in place,
      and the count grows by the number of files selected. */
  lemma UploadsAccumulate(form: Form, selection: Option<seq<File>>, field: FileField)
    ensures var after := HandleFileUpload(form, selection, field);
      && after.additionalDocs[..|form.additionalDocs|] == form.additionalDocs
      && |after.additionalDocs| == |form.additionalDocs|
           + (if field == AdditionalDocs && selection.Some? then |selection.value| else 0)
  {
  }
}
