/**
 * ComponentJob.generate_component_jobs (models.py): for each order line with a part
 * and a jig, the capacity is resolved, the quantity decomposed into jigs and loads,
 * and the route and the load-independent list are built by repeated appends.
 */
module ComponentJobs {
  import opened Wrappers
  import opened Text
  import opened LoadPlanning
  import opened Routes

  /**
   * Builds the per-load route the way the source does: one append per operation,
   * with the `unloadingDone` flag recording whether the dye/seal branch already
   * unloaded the parts.
   */
  method BuildOperations(part: PartSpec, plan: LoadPlan) returns (operations: seq<Operation>)
    requires Compilable(part)
    ensures operations == Route(part, plan)
  {
    var n := plan.loadsRequired;
    var jigged := [AddOperation("Jigging", plan.jiggingDurationPerLoad as real, n, None)];
    var stripped := AppendStrip(jigged, part, plan);
    var body;
    if part.anodisingSelectionStatus == 1 {
      body := AppendAnodic(stripped, part, plan);
    } else {
      body := AppendFinish(stripped, plan);
    }
    operations := AppendClosing(body, part, plan);
    ghost var middle := if part.anodisingSelectionStatus == 1 then AnodicBlock(part, plan) else FinishBlock(plan);
    assert body == [JiggingOp(plan)] + StripBlock(part, plan) + middle;
  }

  /** Strip Etch, when strip etch is selected. */
  method AppendStrip(ops: seq<Operation>, part: PartSpec, plan: LoadPlan) returns (operations: seq<Operation>)
    requires Compilable(part)
    ensures operations == ops + StripBlock(part, plan)
  {
    operations := ops;
    if part.stripEtchSelectionStatus == 1 {
      operations := operations + [AddOperation("Strip Etch", part.stripEtch.value, plan.loadsRequired, None)];
    }
  }

  /** The dye/seal branch, Unloading unless that branch already unloaded, and the finish block. */
  method AppendClosing(ops: seq<Operation>, part: PartSpec, plan: LoadPlan) returns (operations: seq<Operation>)
    requires Compilable(part)
    ensures operations == ops + ClosingBlock(part, plan)
  {
    var unloadingDone;
    operations, unloadingDone := AppendDyeSeal(ops, part, plan);
    ghost var dyed := operations;
    if !unloadingDone {
      operations := operations + [AddOperation("Unloading", 1.0, plan.loadsRequired, None)];
    }
    ghost var unloaded := operations;
    operations := AppendFinish(operations, plan);
    assert operations == ops + (DyeSealBlock(part, plan).0 + (unloaded[|dyed|..]) + FinishBlock(plan));
  }

  /** Loading, Degrease and the first rinse, the optional double-and-etch and etch blocks, Anodising and its rinse. */
  method AppendAnodic(ops: seq<Operation>, part: PartSpec, plan: LoadPlan) returns (operations: seq<Operation>)
    requires Compilable(part) && part.anodisingSelectionStatus == 1
    ensures operations == ops + AnodicBlock(part, plan)
  {
    var opening := AppendOpening(ops, plan);
    var etching := AppendDoubleAndEtch(opening, part, plan);
    var etched := AppendEtch(etching, part, plan);
    operations := AppendAnodising(etched, part, plan);
    AppendedInTurn(ops, AnodicOpening(plan), DoubleAndEtchPart(part, plan), EtchPart(part, plan), AnodisingSteps(part, plan));
  }

  /** Appending four blocks in turn appends their concatenation. */
  lemma AppendedInTurn(ops: seq<Operation>, a: seq<Operation>, b: seq<Operation>, c: seq<Operation>, d: seq<Operation>)
    ensures ops + a + b + c + d == ops + (a + b + c + d)
  {
  }

  /** Loading, Degrease and the first rinse. */
  method AppendOpening(ops: seq<Operation>, plan: LoadPlan) returns (operations: seq<Operation>)
    ensures operations == ops + AnodicOpening(plan)
  {
    var n := plan.loadsRequired;
    operations := ops + [AddOperation("Loading", 1.0, n, None)];
    operations := operations + [AddOperation("Degrease", 10.0, n, None)];
    operations := operations + [AddOperation("Water Rinse (1 or 2)", 1.0, n, None)];
  }

  /** The double-and-etch steps, when that treatment is selected. */
  method AppendDoubleAndEtch(ops: seq<Operation>, part: PartSpec, plan: LoadPlan) returns (operations: seq<Operation>)
    ensures operations == ops + DoubleAndEtchPart(part, plan)
  {
    var n := plan.loadsRequired;
    operations := ops;
    if part.doubleAndEtchSelectionStatus == 1 {
      operations := operations + [AddOperation("Caustic Etch", 0.25, n, None)];
      operations := operations + [AddOperation("Water Rinse (1 or 2)", 1.0, n, None)];
      operations := operations + [AddOperation("Flash Anodise", 5.0, n, Some(Note("16V")))];
      operations := operations + [AddOperation("Water Rinse (3 or 4)", 1.0, n, None)];
      operations := operations + [AddOperation("Caustic Etch", 3.0, n, None)];
    }
  }

  /** The etch steps, when etch is selected. */
  method AppendEtch(ops: seq<Operation>, part: PartSpec, plan: LoadPlan) returns (operations: seq<Operation>)
    requires part.anodisingSelectionStatus == 1 && part.etchSelectionStatus == 1 ==> part.etch.Some?
    requires part.anodisingSelectionStatus == 1
    ensures operations == ops + EtchPart(part, plan)
  {
    var n := plan.loadsRequired;
    operations := ops;
    if part.etchSelectionStatus == 1 {
      operations := operations + [AddOperation("Caustic Etch", part.etch.value, n, None)];
      operations := operations + [AddOperation("Water Rinse (2 or 1)", 1.0, n, None)];
      operations := operations + [AddOperation("Desmut", 1.0, n, None)];
      operations := operations + [AddOperation("Water Rinse (3 or 4)", 1.0, n, None)];
    }
  }

  /** Anodising for the part's duration (0 when unset) with its voltage note, and the rinse after it. */
  method AppendAnodising(ops: seq<Operation>, part: PartSpec, plan: LoadPlan) returns (operations: seq<Operation>)
    ensures operations == ops + AnodisingSteps(part, plan)
  {
    var n := plan.loadsRequired;
    var anodiseDuration := part.anodisingDuration.GetOr(0);
    operations := ops + [AddOperation("Anodising", anodiseDuration as real, n, Some(VoltageNote(part)))];
    operations := operations + [AddOperation("Water Rinse (5 or 6)", 1.0, n, None)];
  }

  /** Drying, Unjigging and Packing. */
  method AppendFinish(ops: seq<Operation>, plan: LoadPlan) returns (operations: seq<Operation>)
    ensures operations == ops + FinishBlock(plan)
  {
    var n := plan.loadsRequired;
    operations := ops + [AddOperation("Drying", 15.0, n, None)];
    operations := operations + [AddOperation("Unjigging", plan.unjiggingDuration as real, n, None)];
    operations := operations + [AddOperation("Packing", plan.packingDuration as real, n, None)];
  }

  /** The dye/seal branch chosen by the dye category, and whether it unloaded the parts. */
  method AppendDyeSeal(ops: seq<Operation>, part: PartSpec, plan: LoadPlan) returns (operations: seq<Operation>, unloadingDone: bool)
    requires Compilable(part)
    ensures operations == ops + DyeSealBlock(part, plan).0
    ensures unloadingDone == DyeSealBlock(part, plan).1
  {
    var n := plan.loadsRequired;
    var dye := DyeName(part);
    var category := CategorizeDye(dye);
    operations := ops;
    unloadingDone := false;
    if part.dyeSelectionStatus == 1 && category == OffLine {
      operations := operations + [AddOperation("Unloading", 1.0, n, None)];
      unloadingDone := true;
      operations := operations + [AddOperation(dye, 20.0, n, None)];
      operations := operations + [AddOperation("Off-line rinse", 1.0, n, None)];
      operations := operations + [AddOperation("Hot Seal", 30.0, n, None)];
      operations := operations + [AddOperation("Off-line rinse", 1.0, n, None)];
      assert DyeSealBlock(part, plan).0 == operations[|ops|..];
    } else if part.dyeSelectionStatus == 1 && category == InLine {
      var sealing := part.sealing.value;
      operations := operations + [AddOperation(dye, 20.0, n, None)];
      operations := operations + [AddOperation("Water Rinse (7)", 1.0, n, None)];
      operations := operations + [AddOperation(sealing, if Contains(sealing, "30 min") || Contains(sealing, "Boiling") then 30.0 else 15.0, n, None)];
      operations := operations + [AddOperation("Water Rinse (8)", 1.0, n, None)];
      assert DyeSealBlock(part, plan).0 == operations[|ops|..];
    } else if part.dyeSelectionStatus == 0 {
      if part.sealing == Some("Hot Seal") {
        operations := operations + [AddOperation("Unloading", 1.0, n, None)];
        unloadingDone := true;
        operations := operations + [AddOperation("Hot Seal", 30.0, n, None)];
        operations := operations + [AddOperation("Off-line rinse", 1.0, n, None)];
        assert DyeSealBlock(part, plan).0 == operations[|ops|..];
      } else {
        var sealing := part.sealing.value;
        operations := operations + [AddOperation(sealing, if Contains(sealing, "30 min") || Contains(sealing, "Boiling") then 30.0 else 15.0, n, None)];
        operations := operations + [AddOperation("Water Rinse (8)", 1.0, n, None)];
        assert DyeSealBlock(part, plan).0 == operations[|ops|..];
      }
    }
  }

  /** The polishing steps (when polishing is selected) and then blasting (when selected), appended one by one. */
  method BuildLoadIndependentOperations(part: PartSpec, plan: LoadPlan) returns (ops: seq<LoadIndependentOperation>)
    ensures ops == LoadIndependentOperations(part, plan)
  {
    ops := [];
    if part.polishingSelectionStatus == 1 {
      for i := 0 to |part.polishing|
        invariant ops == seq(i, k requires 0 <= k < i => PolishingOp(part.polishing[k], plan))
      {
        ops := ops + [PolishingOp(part.polishing[i], plan)];
      }
    }
    if part.blastingSelectionStatus == 1 {
      ops := ops + [BlastingOp(part, plan)];
    }
  }

  // ---------------------------------------------------------------------------
  // Order lines
  // ---------------------------------------------------------------------------

  /** An order line as the generator sees it: its part and the part's jig (either may be missing) and the quantity. */
  datatype OrderLine = OrderLine(part: Option<PartSpec>, jig: Option<Jig>, quantity: int)

  /**
   * Why generation aborts: a zero divisor in the load arithmetic, or a sealing name
   * that the dye/seal block reads but the part does not have (a TypeError in the source).
   */
  datatype JobError = Arithmetic(cause: PlanError) | MissingSealing

  predicate ValuesSetOnLines(lines: seq<OrderLine>)
  {
    forall i :: 0 <= i < |lines| && lines[i].part.Some? ==> TreatmentValuesSet(lines[i].part.value)
  }

  /** The capacity of a line: the part's custom figures, falling back on the jig's. */
  function LineCapacity(part: PartSpec, jig: Jig): Capacity
  {
    ResolveCapacity(part.customUpj, part.customJpl, part.customMpj, Some(jig))
  }

  /** The component job of one line: None when the line is skipped (no part, or no jig). */
  function JobFor(line: OrderLine): (r: Result<Option<ComponentJobPlan>, JobError>)
    requires line.part.Some? ==> TreatmentValuesSet(line.part.value)
    ensures r.Success? && r.value.Some? ==>
      && line.part.Some? && line.jig.Some?
      && Decompose(line.quantity, LineCapacity(line.part.value, line.jig.value)).Success?
      && r.value.value.plan == Decompose(line.quantity, LineCapacity(line.part.value, line.jig.value)).value
  {
    if line.part.None? || line.jig.None? then Success(None)
    else
      var part := line.part.value;
      match Decompose(line.quantity, LineCapacity(part, line.jig.value))
      case Failure(e) => Failure(Arithmetic(e))
      case Success(plan) =>
        if ReadsSealing(part) && part.sealing.None? then Failure(MissingSealing)
        else Success(Some(ComponentJobPlan(plan, Route(part, plan), LoadIndependentOperations(part, plan))))
  }

  /** The jobs of all lines in order, or the first error (which aborts the whole order). */
  function JobsFor(lines: seq<OrderLine>): Result<seq<ComponentJobPlan>, JobError>
    requires ValuesSetOnLines(lines)
  {
    if |lines| == 0 then Success([])
    else
      match JobFor(lines[0])
      case Failure(e) => Failure(e)
      case Success(job) =>
        Prepend(if job.Some? then [job.value] else [], JobsFor(lines[1..]))
  }

  function Prepend(jobs: seq<ComponentJobPlan>, rest: Result<seq<ComponentJobPlan>, JobError>): Result<seq<ComponentJobPlan>, JobError>
  {
    match rest
    case Failure(e) => Failure(e)
    case Success(s) => Success(jobs + s)
  }

  /** A line yields a job exactly when it has a part and a jig. */
  predicate Generates(line: OrderLine) { line.part.Some? && line.jig.Some? }

  function GeneratingCount(lines: seq<OrderLine>): nat
  {
    if |lines| == 0 then 0 else (if Generates(lines[0]) then 1 else 0) + GeneratingCount(lines[1..])
  }

  /**
   * generate_component_jobs over the order's lines: lines without a part or a jig are
   * skipped, and the first failing line aborts with its error.
   */
  method GenerateComponentJobs(lines: seq<OrderLine>) returns (r: Result<seq<ComponentJobPlan>, JobError>)
    requires ValuesSetOnLines(lines)
    ensures r == JobsFor(lines)
  {
    var jobs: seq<ComponentJobPlan> := [];
    assert lines[0..] == lines;
    PrependNothing(JobsFor(lines));
    for i := 0 to |lines|
      invariant ValuesSetOnLines(lines[i..])
      invariant JobsFor(lines) == Prepend(jobs, JobsFor(lines[i..]))
    {
      ValuesSetOnTail(lines[i..]);
      PrependNothing(JobsFor(lines[i + 1..]));
      assert lines[i..][1..] == lines[i + 1..];
      var line := lines[i];
      if line.part.None? {
        continue;
      }
      if line.jig.None? {
        continue;
      }
      var part := line.part.value;
      var cap := ResolveCapacity(part.customUpj, part.customJpl, part.customMpj, line.jig);
      var decomposed := Decompose(line.quantity, cap);
      if decomposed.Failure? {
        return Failure(Arithmetic(decomposed.error));
      }
      var plan := decomposed.value;
      if ReadsSealing(part) && part.sealing.None? {
        return Failure(MissingSealing);
      }
      var loadIndependent := BuildLoadIndependentOperations(part, plan);
      var operations := BuildOperations(part, plan);
      PrependAssociative(jobs, [ComponentJobPlan(plan, operations, loadIndependent)], JobsFor(lines[i + 1..]));
      jobs := jobs + [ComponentJobPlan(plan, operations, loadIndependent)];
    }
    assert lines[|lines|..] == [] && jobs + [] == jobs;
    r := Success(jobs);
  }

  lemma ValuesSetOnTail(lines: seq<OrderLine>)
    requires |lines| > 0 && ValuesSetOnLines(lines)
    ensures ValuesSetOnLines(lines[1..])
  {
    forall i | 0 <= i < |lines[1..]| && lines[1..][i].part.Some?
      ensures TreatmentValuesSet(lines[1..][i].part.value)
    {
      assert lines[1..][i] == lines[i + 1];
    }
  }

  lemma PrependNothing(rest: Result<seq<ComponentJobPlan>, JobError>)
    ensures Prepend([], rest) == rest
  {
    if rest.Success? {
      assert [] + rest.value == rest.value;
    }
  }

  lemma PrependAssociative(a: seq<ComponentJobPlan>, b: seq<ComponentJobPlan>, rest: Result<seq<ComponentJobPlan>, JobError>)
    ensures Prepend(a, Prepend(b, rest)) == Prepend(a + b, rest)
  {
    if rest.Success? {
      assert a + (b + rest.value) == a + b + rest.value;
    }
  }

  // ---------------------------------------------------------------------------
  // Properties of generation
  // ---------------------------------------------------------------------------

  /** When generation succeeds it yields one job per line with a part and a jig, in line order. */
  lemma {:induction false} JobsCount(lines: seq<OrderLine>)
    requires ValuesSetOnLines(lines)
    ensures JobsFor(lines).Success? ==> |JobsFor(lines).value| == GeneratingCount(lines)
  {
    if |lines| > 0 {
      ValuesSetOnTail(lines);
      JobsCount(lines[1..]);
    }
  }

  /**
   * Generation fails exactly when some line with a part and a jig cannot be decomposed
   * (a zero divisor) or lacks a sealing name its dye/seal block reads.
   */
  lemma {:induction false} JobsSucceed(lines: seq<OrderLine>)
    requires ValuesSetOnLines(lines)
    ensures JobsFor(lines).Success? <==>
      forall i :: 0 <= i < |lines| && Generates(lines[i]) ==> LineSucceeds(lines[i])
  {
    if |lines| > 0 {
      ValuesSetOnTail(lines);
      JobsSucceed(lines[1..]);
      if forall i :: 0 <= i < |lines| && Generates(lines[i]) ==> LineSucceeds(lines[i]) {
        forall i | 0 <= i < |lines[1..]| && Generates(lines[1..][i]) ensures LineSucceeds(lines[1..][i]) {
          assert lines[1..][i] == lines[i + 1];
        }
      } else {
        var i :| 0 <= i < |lines| && Generates(lines[i]) && !LineSucceeds(lines[i]);
        if i > 0 {
          assert lines[1..][i - 1] == lines[i];
        }
      }
    }
  }

  /** A line with a part and a jig succeeds when its capacity decomposes and its sealing name is there when read. */
  predicate LineSucceeds(line: OrderLine)
    requires Generates(line)
  {
    var part := line.part.value;
    && Decompose(line.quantity, LineCapacity(part, line.jig.value)).Success?
    && !(ReadsSealing(part) && part.sealing.None?)
  }

  /** Every generated job carries the route and the load-independent list of its line's part and plan. */
  lemma JobContents(line: OrderLine)
    requires Generates(line) && TreatmentValuesSet(line.part.value) && LineSucceeds(line)
    ensures var plan := Decompose(line.quantity, LineCapacity(line.part.value, line.jig.value)).value;
      JobFor(line) == Success(Some(ComponentJobPlan(plan, Route(line.part.value, plan), LoadIndependentOperations(line.part.value, plan))))
  {
  }
}
