/**
 * process_new_part of azureapp.py: one new part of the order form becomes a row of
 * the parts table. The handler validates the three identifying fields, turns the
 * anodising choice into values and selection flags, derives every other flag from
 * its form choice, collects up to three polishing steps and saves the row, whose
 * CHECK constraints the database enforces on commit.
 *
 * Form values arrive here already converted (`int(...)`, `float(...)`); the text
 * conversion itself and its errors are not part of this model.
 */
module PartForm {
  import opened Wrappers
  import opened Text
  import opened Routes
  import opened ComponentJobs

  /** The three text fields of a polishing step. */
  datatype PolishingField = Equipment | Grit | Compound

  /**
   * The entries of the form for one new part. A choice field holds the menu text the
   * user picked. `brightening` is None for the choice "No" and the chosen number
   * otherwise; the custom figures are None for an empty entry. `polishingFields` maps
   * (field, k) to the text posted as polishing_<field>_<k>; a missing key reads as "".
   */
  datatype NewPartForm = NewPartForm(
    partNumber: string, partDescription: string, jigType: string, quantity: int,
    anodisingRequired: string, anodisingDuration: int, voltage: real,
    etch: real, sealing: string, dye: string, doubleAndEtch: string,
    brightening: Option<real>, blasting: string, polishing: string,
    polishingFields: map<(PolishingField, int), string>,
    customUpj: Option<int>, customJpl: Option<int>, customMpj: Option<int>)

  /** A saved part together with the fields the handler returns beside it. */
  datatype NewPart = NewPart(partNumber: string, partDescription: string, quantity: int, part: PartSpec)

  /** Why the handler raises ValueError (every error is re-raised as one). */
  datatype FormError =
    | MissingPartNumber
    | MissingPartDescription
    | MissingJigType
    | UnknownAnodisingChoice
    | ConstraintViolation

  // ---------------------------------------------------------------------------
  // The anodising choice
  // ---------------------------------------------------------------------------

  const AnodisingIsRequired: string := "Anodising is required"
  const NoAnodicTreatment: string := "No anodic treatment required"
  const StripOnlyAA10: string := "Strip Only (for AA10)"
  const StripOnlyAA25: string := "Strip Only (for AA25)"

  /** The values and flags one anodising choice sets. */
  datatype AnodisingSettings = AnodisingSettings(
    duration: Option<int>, voltage: Option<real>, anodisingStatus: int, voltageStatus: int,
    stripEtch: Option<real>, stripEtchStatus: int)

  /** The four branches of the anodising choice; None for any other text, which leaves the values unbound. */
  function AnodisingChoice(form: NewPartForm): Option<AnodisingSettings>
  {
    if form.anodisingRequired == AnodisingIsRequired then
      Some(AnodisingSettings(Some(form.anodisingDuration), Some(form.voltage), 1, 1, None, 0))
    else if form.anodisingRequired == NoAnodicTreatment then
      Some(AnodisingSettings(None, None, 0, 0, None, 0))
    else if form.anodisingRequired == StripOnlyAA10 then
      Some(AnodisingSettings(None, None, 0, 0, Some(1.0), 1))
    else if form.anodisingRequired == StripOnlyAA25 then
      Some(AnodisingSettings(None, None, 0, 0, Some(2.5), 1))
    else None
  }

  // ---------------------------------------------------------------------------
  // Polishing steps
  // ---------------------------------------------------------------------------

  /** `form_data.get(key, "").strip()`. */
  function FieldText(fields: map<(PolishingField, int), string>, f: PolishingField, k: int): string
  {
    Strip(if (f, k) in fields then fields[(f, k)] else "")
  }

  /** Whether step k has any non-empty field. */
  predicate StepEntered(fields: map<(PolishingField, int), string>, k: int)
  {
    FieldText(fields, Equipment, k) != [] || FieldText(fields, Grit, k) != [] || FieldText(fields, Compound, k) != []
  }

  function StepAt(fields: map<(PolishingField, int), string>, k: nat): PolishingStep
  {
    PolishingStep(k, FieldText(fields, Equipment, k), FieldText(fields, Grit, k), FieldText(fields, Compound, k))
  }

  /** The steps 1..n that have any non-empty field, in order. */
  function PolishingSteps(fields: map<(PolishingField, int), string>, n: nat): seq<PolishingStep>
  {
    if n == 0 then []
    else PolishingSteps(fields, n - 1) + (if StepEntered(fields, n) then [StepAt(fields, n)] else [])
  }

  /** The polishing loop: steps 1 to 3, appending each step with any non-empty field. */
  method CollectPolishingSteps(fields: map<(PolishingField, int), string>) returns (steps: seq<PolishingStep>)
    ensures steps == PolishingSteps(fields, 3)
  {
    steps := [];
    for stepIndex := 1 to 4
      invariant steps == PolishingSteps(fields, stepIndex - 1)
    {
      var equipment := FieldText(fields, Equipment, stepIndex);
      var grit := FieldText(fields, Grit, stepIndex);
      var compound := FieldText(fields, Compound, stepIndex);
      if equipment != [] || grit != [] || compound != [] {
        steps := steps + [PolishingStep(stepIndex, equipment, grit, compound)];
      }
    }
  }

  // ---------------------------------------------------------------------------
  // The row
  // ---------------------------------------------------------------------------

  /** `1 if <condition> else 0`. */
  function Status(b: bool): int
  {
    if b then 1 else 0
  }

  /** The CHECK constraints of the parts table. */
  predicate MeetsConstraints(p: PartSpec)
  {
    && (p.anodisingDuration.None? || 5 <= p.anodisingDuration.value <= 90)
    && (p.voltage.None? || 12.5 <= p.voltage.value <= 20.0)
    && (p.doubleAndEtch.None? || p.doubleAndEtch.value in {"Yes", "No"})
    && (p.brightening.None? || p.brightening.value >= 0.0)
    && p.anodisingSelectionStatus in {0, 1}
    && p.voltageSelectionStatus in {0, 1}
    && p.etchSelectionStatus in {0, 1}
    && p.stripEtchSelectionStatus in {0, 1}
    && p.sealingSelectionStatus in {0, 1}
    && p.dyeSelectionStatus in {0, 1}
    && p.polishingSelectionStatus in {0, 1}
    && p.blastingSelectionStatus in {0, 1}
    && p.brighteningSelectionStatus in {0, 1}
    && p.doubleAndEtchSelectionStatus in {0, 1}
  }

  /** The row the handler builds from the form, the anodising settings and the collected steps. */
  function PartRow(form: NewPartForm, a: AnodisingSettings, steps: seq<PolishingStep>): PartSpec
  {
    var brightening := if form.brightening.Some? then form.brightening.value else 0.0;
    PartSpec(
      a.duration, a.anodisingStatus,
      a.voltage, a.voltageStatus,
      Some(form.etch), Status(form.etch > 0.0),
      a.stripEtch, a.stripEtchStatus,
      Some(form.sealing), Status(form.sealing != "No sealing"),
      Some(form.dye), Status(form.dye != "Default"),
      Some(form.doubleAndEtch), Status(form.doubleAndEtch == "Yes"),
      if form.polishing == "Yes" then steps else [], Status(form.polishing == "Yes"),
      Some(form.blasting), Status(form.blasting != "No"),
      Some(brightening), Status(brightening > 0.0),
      Some(Strip(form.jigType)),
      form.customUpj, form.customJpl, form.customMpj)
  }

  /** What process_new_part returns or raises for one form entry. */
  function NewPartResult(form: NewPartForm): Result<NewPart, FormError>
  {
    var number := Strip(form.partNumber);
    var description := Strip(form.partDescription);
    if number == [] then Failure(MissingPartNumber)
    else if description == [] then Failure(MissingPartDescription)
    else if Strip(form.jigType) == [] then Failure(MissingJigType)
    else match AnodisingChoice(form)
      case None => Failure(UnknownAnodisingChoice)
      case Some(a) =>
        var p := PartRow(form, a, PolishingSteps(form.polishingFields, 3));
        if MeetsConstraints(p) then Success(NewPart(number, description, form.quantity, p))
        else Failure(ConstraintViolation)
  }

  /** The if/elif chain on the anodising choice; None where no branch matches. */
  method ChooseAnodising(form: NewPartForm) returns (settings: Option<AnodisingSettings>)
    ensures settings == AnodisingChoice(form)
  {
    var anodisingDuration: Option<int>, voltage: Option<real>;
    var anodisingStatus: int, voltageStatus: int;
    var stripEtch: Option<real>, stripEtchStatus: int;
    if form.anodisingRequired == AnodisingIsRequired {
      anodisingDuration, voltage := Some(form.anodisingDuration), Some(form.voltage);
      anodisingStatus, voltageStatus := 1, 1;
      stripEtch, stripEtchStatus := None, 0;
    } else if form.anodisingRequired == NoAnodicTreatment {
      anodisingDuration, voltage := None, None;
      anodisingStatus, voltageStatus := 0, 0;
      stripEtch, stripEtchStatus := None, 0;
    } else if form.anodisingRequired == StripOnlyAA10 {
      anodisingDuration, voltage := None, None;
      anodisingStatus, voltageStatus := 0, 0;
      stripEtch, stripEtchStatus := Some(1.0), 1;
    } else if form.anodisingRequired == StripOnlyAA25 {
      anodisingDuration, voltage := None, None;
      anodisingStatus, voltageStatus := 0, 0;
      stripEtch, stripEtchStatus := Some(2.5), 1;
    } else {
      return None;
    }
    settings := Some(AnodisingSettings(anodisingDuration, voltage, anodisingStatus, voltageStatus, stripEtch, stripEtchStatus));
  }

  /** The handler, statement by statement. */
  method ProcessNewPart(form: NewPartForm) returns (r: Result<NewPart, FormError>)
    ensures r == NewPartResult(form)
  {
    var partNumber := Strip(form.partNumber);
    var partDescription := Strip(form.partDescription);
    var jigType := Strip(form.jigType);
    if partNumber == [] {
      return Failure(MissingPartNumber);
    }
    if partDescription == [] {
      return Failure(MissingPartDescription);
    }
    if jigType == [] {
      return Failure(MissingJigType);
    }

    var anodising := ChooseAnodising(form);
    if anodising.None? {
      return Failure(UnknownAnodisingChoice);
    }
    var a := anodising.value;

    var etchStatus := if form.etch > 0.0 then 1 else 0;
    var sealingStatus := if form.sealing != "No sealing" then 1 else 0;
    var dyeStatus := if form.dye != "Default" then 1 else 0;
    var doubleAndEtchStatus := if form.doubleAndEtch == "Yes" then 1 else 0;
    var brightening := if form.brightening.Some? then form.brightening.value else 0.0;
    var brighteningStatus := if brightening > 0.0 then 1 else 0;
    var blastingStatus := if form.blasting != "No" then 1 else 0;

    var polishingStatus := if form.polishing == "Yes" then 1 else 0;
    var polishingSteps: seq<PolishingStep> := [];
    if polishingStatus == 1 {
      polishingSteps := CollectPolishingSteps(form.polishingFields);
    }

    var part := PartSpec(
      a.duration, a.anodisingStatus, a.voltage, a.voltageStatus,
      Some(form.etch), etchStatus, a.stripEtch, a.stripEtchStatus,
      Some(form.sealing), sealingStatus, Some(form.dye), dyeStatus,
      Some(form.doubleAndEtch), doubleAndEtchStatus,
      polishingSteps, polishingStatus,
      Some(form.blasting), blastingStatus,
      Some(brightening), brighteningStatus,
      Some(jigType), form.customUpj, form.customJpl, form.customMpj);
    assert part == PartRow(form, a, PolishingSteps(form.polishingFields, 3));
    if !MeetsConstraints(part) {
      return Failure(ConstraintViolation);
    }
    return Success(NewPart(partNumber, partDescription, form.quantity, part));
  }

  // ---------------------------------------------------------------------------
  // Properties
  // ---------------------------------------------------------------------------

  /**
   * The collected steps are numbered within 1..n, in increasing order, each with the
   * stripped texts of its own fields; step k is present exactly when one of its
   * fields is non-empty.
   */
  lemma PolishingStepsShape(fields: map<(PolishingField, int), string>, n: nat)
    ensures var r := PolishingSteps(fields, n);
      && |r| <= n
      && (forall i :: 0 <= i < |r| ==> 1 <= r[i].stepNumber <= n && r[i] == StepAt(fields, r[i].stepNumber))
      && (forall i, j :: 0 <= i < j < |r| ==> r[i].stepNumber < r[j].stepNumber)
      && (forall k :: 1 <= k <= n ==> (StepEntered(fields, k) <==> exists i :: 0 <= i < |r| && r[i].stepNumber == k))
  {
    PolishingStepsNumbered(fields, n);
    PolishingStepsIncreasing(fields, n);
    var r := PolishingSteps(fields, n);
    forall k | 1 <= k <= n && StepEntered(fields, k)
      ensures exists i :: 0 <= i < |r| && r[i].stepNumber == k
    {
      PolishingStepsEntered(fields, n, k);
    }
  }

  /** Each collected step is numbered 1..n, holds the fields of that number, and has one of them entered. */
  lemma {:induction false} PolishingStepsNumbered(fields: map<(PolishingField, int), string>, n: nat)
    ensures var r := PolishingSteps(fields, n);
      && |r| <= n
      && forall i :: 0 <= i < |r| ==>
           && 1 <= r[i].stepNumber <= n && r[i] == StepAt(fields, r[i].stepNumber)
           && StepEntered(fields, r[i].stepNumber)
  {
    if n > 0 {
      PolishingStepsNumbered(fields, n - 1);
      var prev, r := PolishingSteps(fields, n - 1), PolishingSteps(fields, n);
      forall i | 0 <= i < |r|
        ensures 1 <= r[i].stepNumber <= n && r[i] == StepAt(fields, r[i].stepNumber)
        ensures StepEntered(fields, r[i].stepNumber)
      {
        if i < |prev| {
          assert r[i] == prev[i];
        }
      }
    }
  }

  lemma {:induction false} PolishingStepsIncreasing(fields: map<(PolishingField, int), string>, n: nat)
    ensures var r := PolishingSteps(fields, n);
      forall i, j :: 0 <= i < j < |r| ==> r[i].stepNumber < r[j].stepNumber
  {
    if n > 0 {
      PolishingStepsIncreasing(fields, n - 1);
      PolishingStepsNumbered(fields, n - 1);
      var prev, r := PolishingSteps(fields, n - 1), PolishingSteps(fields, n);
      forall i, j | 0 <= i < j < |r|
        ensures r[i].stepNumber < r[j].stepNumber
      {
        assert r[i] == prev[i];
        if j < |prev| {
          assert r[j] == prev[j];
        }
      }
    }
  }

  /** An entered step k within 1..n is collected. */
  lemma {:induction false} PolishingStepsEntered(fields: map<(PolishingField, int), string>, n: nat, k: int)
    requires 1 <= k <= n && StepEntered(fields, k)
    ensures exists i :: 0 <= i < |PolishingSteps(fields, n)| && PolishingSteps(fields, n)[i].stepNumber == k
  {
    var prev, r := PolishingSteps(fields, n - 1), PolishingSteps(fields, n);
    assert r == prev + [StepAt(fields, n)] || r == prev;
    if k == n {
      assert r == prev + [StepAt(fields, n)];
      assert r[|prev|].stepNumber == k;
    } else {
      PolishingStepsEntered(fields, n - 1, k);
      var i :| 0 <= i < |prev| && prev[i].stepNumber == k;
      assert r[i] == prev[i];
    }
  }

  /** The handler fails on exactly these inputs, with the first failing check's error. */
  lemma NewPartErrors(form: NewPartForm)
    ensures var r := NewPartResult(form);
      && (r == Failure(MissingPartNumber) <==> Strip(form.partNumber) == [])
      && (r == Failure(MissingPartDescription) <==> Strip(form.partNumber) != [] && Strip(form.partDescription) == [])
      && (r == Failure(MissingJigType) <==>
           Strip(form.partNumber) != [] && Strip(form.partDescription) != [] && Strip(form.jigType) == [])
      && (r == Failure(UnknownAnodisingChoice) <==>
           && Strip(form.partNumber) != [] && Strip(form.partDescription) != [] && Strip(form.jigType) != []
           && form.anodisingRequired !in {AnodisingIsRequired, NoAnodicTreatment, StripOnlyAA10, StripOnlyAA25})
  {
  }

  /**
   * The anodising choice decides the anodising and strip flags: "Anodising is required"
   * sets the anodising and voltage flags (with the duration and voltage inside the
   * table's ranges) and no strip; a strip-only choice sets the strip flag with 1.0 or
   * 2.5 and no anodising; "No anodic treatment required" sets neither.
   */
  lemma AnodisingFlags(form: NewPartForm)
    requires NewPartResult(form).Success?
    ensures var p := NewPartResult(form).value.part;
      && (p.anodisingSelectionStatus == 1 <==> form.anodisingRequired == AnodisingIsRequired)
      && p.voltageSelectionStatus == p.anodisingSelectionStatus
      && (p.stripEtchSelectionStatus == 1 <==> form.anodisingRequired in {StripOnlyAA10, StripOnlyAA25})
      && !(p.anodisingSelectionStatus == 1 && p.stripEtchSelectionStatus == 1)
      && (form.anodisingRequired == NoAnodicTreatment ==> p.anodisingSelectionStatus == 0 && p.stripEtchSelectionStatus == 0)
      && (form.anodisingRequired == StripOnlyAA10 ==> p.stripEtch == Some(1.0))
      && (form.anodisingRequired == StripOnlyAA25 ==> p.stripEtch == Some(2.5))
      && (p.anodisingSelectionStatus == 1 ==>
            && p.anodisingDuration == Some(form.anodisingDuration) && 5 <= form.anodisingDuration <= 90
            && p.voltage == Some(form.voltage) && 12.5 <= form.voltage <= 20.0)
      && (p.anodisingSelectionStatus == 0 ==> p.anodisingDuration.None? && p.voltage.None?)
  {
  }

  /** Every other flag is 1 exactly when its form choice selects the treatment, and 0 otherwise. */
  lemma FlagsFollowChoices(form: NewPartForm)
    requires NewPartResult(form).Success?
    ensures var p := NewPartResult(form).value.part;
      && (p.etchSelectionStatus == 1 <==> form.etch > 0.0)
      && (p.sealingSelectionStatus == 1 <==> form.sealing != "No sealing")
      && (p.dyeSelectionStatus == 1 <==> form.dye != "Default")
      && (p.doubleAndEtchSelectionStatus == 1 <==> form.doubleAndEtch == "Yes")
      && (p.blastingSelectionStatus == 1 <==> form.blasting != "No")
      && (p.brighteningSelectionStatus == 1 <==> form.brightening.Some? && form.brightening.value > 0.0)
      && (p.polishingSelectionStatus == 1 <==> form.polishing == "Yes")
      && (p.polishingSelectionStatus == 0 ==> p.polishing == [])
      && MeetsConstraints(p)
  {
  }

  /**
   * A saved part can always be compiled into a route: a selected strip etch or etch
   * carries its value and the sealing name is always stored.
   */
  lemma SavedPartCompiles(form: NewPartForm)
    requires NewPartResult(form).Success?
    ensures Compilable(NewPartResult(form).value.part)
    ensures TreatmentValuesSet(NewPartResult(form).value.part)
  {
  }
}
