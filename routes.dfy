/**
 * The route compiler of models.py: the part's treatment choices become the ordered
 * list of per-load operations (ComponentJob.add_operation, categorize_dye and the
 * route-building body of ComponentJob.generate_component_jobs), plus the list of
 * load-independent polishing and blasting operations.
 *
 * The route is specified here as the concatenation of the blocks the source appends
 * one after another; ComponentJobs.BuildOperations appends them step by step and is
 * proved to produce exactly this sequence.
 */
module Routes {
  import opened Wrappers
  import opened Text
  import opened LoadPlanning

  // ---------------------------------------------------------------------------
  // Part specification (the columns of the parts table the compiler reads)
  // ---------------------------------------------------------------------------

  datatype PolishingStep = PolishingStep(stepNumber: nat, equipment: string, grit: string, compound: string)

  /**
   * One row of the parts table. Selection statuses are the integer columns the
   * source compares with `== 1` and `== 0`; the table constrains them to {0, 1}.
   * `polishing` is the decoded list of polishing steps (empty when the column is null).
   */
  datatype PartSpec = PartSpec(
    anodisingDuration: Option<int>, anodisingSelectionStatus: int,
    voltage: Option<real>, voltageSelectionStatus: int,
    etch: Option<real>, etchSelectionStatus: int,
    stripEtch: Option<real>, stripEtchSelectionStatus: int,
    sealing: Option<string>, sealingSelectionStatus: int,
    dye: Option<string>, dyeSelectionStatus: int,
    doubleAndEtch: Option<string>, doubleAndEtchSelectionStatus: int,
    polishing: seq<PolishingStep>, polishingSelectionStatus: int,
    blasting: Option<string>, blastingSelectionStatus: int,
    brightening: Option<real>, brighteningSelectionStatus: int,
    jigType: Option<string>,
    customUpj: Option<int>, customJpl: Option<int>, customMpj: Option<int>)

  // ---------------------------------------------------------------------------
  // Operations
  // ---------------------------------------------------------------------------

  /**
   * The note appended to an operation's description: a literal text such as "16V",
   * or the anodising voltage (None standing for the "N/A" the source writes when the
   * voltage is null or zero), rendered with a trailing "V".
   */
  datatype Info = Note(text: string) | Volts(voltage: Option<real>)

  /**
   * One entry of the per-load route, the dictionary {operation, duration, description,
   * initials}. The stored description and initials are derived from the name, the note
   * and the number of loads, so they are kept here as those inputs and computed by
   * Description() and Initials().
   */
  datatype Operation = Operation(name: string, duration: real, info: Option<Info>, loadsRequired: int)
  {
    /** The lower-cased operation name, followed by " (<info>)" when there is a note. */
    function Description(): (string, Option<Info>)
    {
      (Lower(name), info)
    }

    /** The per-load sign-off labels. */
    function Initials(): seq<string>
    {
      LoadLabels(loadsRequired)
    }
  }

  /** One entry of the load-independent list: {operation, duration, notes}. */
  datatype LoadIndependentOperation = LoadIndependentOperation(name: string, duration: int, notes: string)

  /** The per-load sign-off labels "Load 1" .. "Load n" (none when n is not positive, as with Python's range). */
  function LoadLabels(n: int): (r: seq<string>)
    ensures |r| == (if n > 0 then n else 0)
    ensures forall i :: 0 <= i < |r| ==> r[i] == "Load " + NatToString(i + 1)
  {
    if n <= 0 then [] else seq(n, i requires 0 <= i < n => "Load " + NatToString(i + 1))
  }

  /** ComponentJob.add_operation */
  function AddOperation(name: string, duration: real, loadsRequired: int, info: Option<Info>): Operation
  {
    Operation(name, duration, info, loadsRequired)
  }

  /**
   * An added operation keeps its name and duration; its description is the name with
   * every letter in lower case, and it is signed off under "Load 1" .. "Load n".
   */
  lemma AddOperationRecord(name: string, duration: real, loadsRequired: int, info: Option<Info>)
    ensures var op := AddOperation(name, duration, loadsRequired, info);
      && op.name == name && op.duration == duration
      && |op.Description().0| == |name| && op.Description().1 == info
      && (forall i :: 0 <= i < |name| ==> op.Description().0[i] == LowerChar(name[i]))
      && (forall i :: 0 <= i < |name| ==> !IsUpper(op.Description().0[i]))
      && |op.Initials()| == (if loadsRequired > 0 then loadsRequired else 0)
      && (forall i :: 0 <= i < |op.Initials()| ==> op.Initials()[i] == "Load " + NatToString(i + 1))
  {
  }

  // ---------------------------------------------------------------------------
  // Dye categories and seal durations
  // ---------------------------------------------------------------------------

  datatype DyeCategory = InLine | OffLine | NoDye

  /** DYE_CATEGORIES */
  const DyeCategories: map<string, DyeCategory> := map[
    "Gold" := InLine,
    "Black" := InLine,
    "Premium Black" := OffLine,
    "Blue" := OffLine,
    "Turquoise" := OffLine,
    "Stainless" := OffLine,
    "Green" := OffLine,
    "Bronze" := OffLine,
    "Red" := OffLine,
    "Orange" := OffLine,
    "Default (un-dyed)" := NoDye,
    "No" := NoDye
  ]

  /**
   * categorize_dye, written by its outcomes: the two in-line names, the two un-dyed
   * names, and "off-line" for everything else (the table's off-line entries and every
   * name not in the table alike). CategorizeDyeTable proves it agrees with the table.
   */
  function CategorizeDye(name: string): DyeCategory
  {
    if name == "Gold" || name == "Black" then InLine
    else if name == "Default (un-dyed)" || name == "No" then NoDye
    else OffLine
  }

  /** `DYE_CATEGORIES.get(name, "off-line")` is CategorizeDye(name), for every name. */
  lemma CategorizeDyeTable(name: string)
    ensures CategorizeDye(name) == if name in DyeCategories then DyeCategories[name] else OffLine
  {
  }

  /** "in-line" exactly for Gold and Black, "none" exactly for the two un-dyed names, "off-line" for all others. */
  lemma CategorizeDyeCases(name: string)
    ensures CategorizeDye(name) == InLine <==> name == "Gold" || name == "Black"
    ensures CategorizeDye(name) == NoDye <==> name == "Default (un-dyed)" || name == "No"
    ensures CategorizeDye(name) == OffLine <==> name != "Gold" && name != "Black" && name != "Default (un-dyed)" && name != "No"
  {
  }

  /** The dye name the compiler works with: the capitalised column, or "Default (un-dyed)" when it is null or empty. */
  function DyeName(part: PartSpec): string
  {
    if part.dye.Some? && part.dye.value != "" then Capitalize(part.dye.value) else "Default (un-dyed)"
  }

  /** A sealing step lasts 30 minutes when its name mentions "30 min" or "Boiling", else 15. */
  function SealDuration(sealing: string): real
  {
    if Contains(sealing, "30 min") || Contains(sealing, "Boiling") then 30.0 else 15.0
  }

  /** 30 minutes exactly when the name mentions "30 min" or "Boiling" somewhere, and 15 otherwise. */
  lemma SealDurationCases(sealing: string)
    ensures SealDuration(sealing) == 30.0 <==> (exists i :: OccursAt(sealing, "30 min", i)) || (exists i :: OccursAt(sealing, "Boiling", i))
    ensures SealDuration(sealing) == 15.0 <==> (forall i :: !OccursAt(sealing, "30 min", i)) && (forall i :: !OccursAt(sealing, "Boiling", i))
  {
    ContainsOccurrence(sealing, "30 min");
    ContainsOccurrence(sealing, "Boiling");
  }

  // ---------------------------------------------------------------------------
  // The route, block by block
  // ---------------------------------------------------------------------------

  /** Whether the dye/seal block reads `part.sealing` (the in-line dyed branch and the undyed non-"Hot Seal" branch). */
  predicate ReadsSealing(part: PartSpec)
  {
    var category := CategorizeDye(DyeName(part));
    (part.dyeSelectionStatus == 1 && category == InLine)
    || (part.dyeSelectionStatus == 0 && part.sealing != Some("Hot Seal"))
  }

  /**
   * The strip-etch and etch values the route stores as durations are set whenever
   * selected (a null one would be stored as a null duration that the scheduler cannot
   * convert).
   */
  predicate TreatmentValuesSet(part: PartSpec)
  {
    && (part.stripEtchSelectionStatus == 1 ==> part.stripEtch.Some?)
    && (part.anodisingSelectionStatus == 1 && part.etchSelectionStatus == 1 ==> part.etch.Some?)
  }

  /**
   * What the compiler needs of a part: its treatment values are set, and the sealing
   * name is set where the dye/seal block reads it (the source raises TypeError on
   * `"30 min" in None`).
   */
  predicate Compilable(part: PartSpec)
  {
    TreatmentValuesSet(part) && (ReadsSealing(part) ==> part.sealing.Some?)
  }

  function Op(name: string, duration: real, plan: LoadPlan): Operation
  {
    AddOperation(name, duration, plan.loadsRequired, None)
  }

  function JiggingOp(plan: LoadPlan): Operation
  {
    Op("Jigging", plan.jiggingDurationPerLoad as real, plan)
  }

  function StripBlock(part: PartSpec, plan: LoadPlan): seq<Operation>
    requires Compilable(part)
  {
    if part.stripEtchSelectionStatus == 1 then [Op("Strip Etch", part.stripEtch.value, plan)] else []
  }

  function DoubleAndEtchBlock(plan: LoadPlan): seq<Operation>
  {
    [ Op("Caustic Etch", 0.25, plan),
      Op("Water Rinse (1 or 2)", 1.0, plan),
      AddOperation("Flash Anodise", 5.0, plan.loadsRequired, Some(Note("16V"))),
      Op("Water Rinse (3 or 4)", 1.0, plan),
      Op("Caustic Etch", 3.0, plan) ]
  }

  /** The etch block; its first rinse is named "Water Rinse (2 or 1)" in the source. */
  function EtchBlock(etch: real, plan: LoadPlan): seq<Operation>
  {
    [ Op("Caustic Etch", etch, plan),
      Op("Water Rinse (2 or 1)", 1.0, plan),
      Op("Desmut", 1.0, plan),
      Op("Water Rinse (3 or 4)", 1.0, plan) ]
  }

  /** `part.voltage or "N/A"`: a null or zero voltage is written as N/A. */
  function VoltageNote(part: PartSpec): Info
  {
    if part.voltage.Some? && part.voltage.value != 0.0 then Volts(part.voltage) else Volts(None)
  }

  /** Loading, Degrease and the first rinse, which open the anodic process. */
  function AnodicOpening(plan: LoadPlan): seq<Operation>
  {
    [ Op("Loading", 1.0, plan),
      Op("Degrease", 10.0, plan),
      Op("Water Rinse (1 or 2)", 1.0, plan) ]
  }

  /** The double-and-etch block when selected, else nothing. */
  function DoubleAndEtchPart(part: PartSpec, plan: LoadPlan): seq<Operation>
  {
    if part.doubleAndEtchSelectionStatus == 1 then DoubleAndEtchBlock(plan) else []
  }

  /** The etch block when selected, else nothing. */
  function EtchPart(part: PartSpec, plan: LoadPlan): seq<Operation>
    requires part.anodisingSelectionStatus == 1 && part.etchSelectionStatus == 1 ==> part.etch.Some?
    requires part.anodisingSelectionStatus == 1
  {
    if part.etchSelectionStatus == 1 then EtchBlock(part.etch.value, plan) else []
  }

  /** Anodising for the part's duration (0 when unset) with the voltage note, and its rinse. */
  function AnodisingSteps(part: PartSpec, plan: LoadPlan): seq<Operation>
  {
    [ AddOperation("Anodising", part.anodisingDuration.GetOr(0) as real, plan.loadsRequired, Some(VoltageNote(part))),
      Op("Water Rinse (5 or 6)", 1.0, plan) ]
  }

  function AnodicBlock(part: PartSpec, plan: LoadPlan): seq<Operation>
    requires Compilable(part) && part.anodisingSelectionStatus == 1
  {
    AnodicOpening(plan) + DoubleAndEtchPart(part, plan) + EtchPart(part, plan) + AnodisingSteps(part, plan)
  }

  /** Drying, Unjigging and Packing, which close every route (and follow Jigging directly when there is no anodising). */
  function FinishBlock(plan: LoadPlan): seq<Operation>
  {
    [ Op("Drying", 15.0, plan),
      Op("Unjigging", plan.unjiggingDuration as real, plan),
      Op("Packing", plan.packingDuration as real, plan) ]
  }

  /** The dye/seal block, and whether it already unloaded the parts. */
  function DyeSealBlock(part: PartSpec, plan: LoadPlan): (seq<Operation>, bool)
    requires Compilable(part)
  {
    var dye := DyeName(part);
    var category := CategorizeDye(dye);
    if part.dyeSelectionStatus == 1 && category == OffLine then
      ([ Op("Unloading", 1.0, plan),
         Op(dye, 20.0, plan),
         Op("Off-line rinse", 1.0, plan),
         Op("Hot Seal", 30.0, plan),
         Op("Off-line rinse", 1.0, plan) ], true)
    else if part.dyeSelectionStatus == 1 && category == InLine then
      ([ Op(dye, 20.0, plan),
         Op("Water Rinse (7)", 1.0, plan),
         Op(part.sealing.value, SealDuration(part.sealing.value), plan),
         Op("Water Rinse (8)", 1.0, plan) ], false)
    else if part.dyeSelectionStatus == 0 then
      if part.sealing == Some("Hot Seal") then
        // The source passes this duration as the string "1", which the scheduler reads with float().
        ([ Op("Unloading", 1.0, plan),
           Op("Hot Seal", 30.0, plan),
           Op("Off-line rinse", 1.0, plan) ], true)
      else
        ([ Op(part.sealing.value, SealDuration(part.sealing.value), plan),
           Op("Water Rinse (8)", 1.0, plan) ], false)
    else
      ([], false)
  }

  /** The dye/seal block, Unloading unless that block already unloaded, and the finish block. */
  function ClosingBlock(part: PartSpec, plan: LoadPlan): seq<Operation>
    requires Compilable(part)
  {
    var dyeSeal := DyeSealBlock(part, plan);
    dyeSeal.0
    + (if dyeSeal.1 then [] else [Op("Unloading", 1.0, plan)])
    + FinishBlock(plan)
  }

  /**
   * The per-load route of one order line. Without anodising the finish block follows
   * Jigging at once and the closing block still runs, so Drying, Unjigging and Packing
   * then appear twice.
   */
  function Route(part: PartSpec, plan: LoadPlan): seq<Operation>
    requires Compilable(part)
  {
    [JiggingOp(plan)]
    + StripBlock(part, plan)
    + (if part.anodisingSelectionStatus == 1 then AnodicBlock(part, plan) else FinishBlock(plan))
    + ClosingBlock(part, plan)
  }

  // ---------------------------------------------------------------------------
  // Load-independent operations
  // ---------------------------------------------------------------------------

  function QuantityNotes(quantity: int): string
  {
    "DD/MM & Initial(s) & Quantity: " + IntToString(quantity)
  }

  function PolishingOp(step: PolishingStep, plan: LoadPlan): LoadIndependentOperation
  {
    LoadIndependentOperation(
      "Polishing; Step " + NatToString(step.stepNumber) + ", Equipment: " + step.equipment
        + ", Grit: " + step.grit + ", Compound: " + step.compound,
      4 * plan.totalJiggingDuration,
      QuantityNotes(plan.quantity))
  }

  function BlastingOp(part: PartSpec, plan: LoadPlan): LoadIndependentOperation
  {
    LoadIndependentOperation(
      "Blasting (" + part.blasting.GetOr("None") + ")",
      2 * plan.totalJiggingDuration,
      QuantityNotes(plan.quantity))
  }

  /** One polishing entry per step when polishing is selected, then one blasting entry when blasting is. */
  function LoadIndependentOperations(part: PartSpec, plan: LoadPlan): seq<LoadIndependentOperation>
  {
    (if part.polishingSelectionStatus == 1
     then seq(|part.polishing|, i requires 0 <= i < |part.polishing| => PolishingOp(part.polishing[i], plan))
     else [])
    + (if part.blastingSelectionStatus == 1 then [BlastingOp(part, plan)] else [])
  }

  /** The stored component job of one order line. */
  datatype ComponentJobPlan = ComponentJobPlan(
    plan: LoadPlan,
    operations: seq<Operation>,
    loadIndependentOperations: seq<LoadIndependentOperation>)
}
