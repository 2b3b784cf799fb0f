/**
 * Jig capacity resolution and load decomposition of one order line
 * (ComponentJob.determine_jig_values and the arithmetic at the top of
 * ComponentJob.generate_component_jobs).
 *
 * Python's `math.ceil(a / b)` on integers is modelled exactly by CeilDiv; the
 * float form `math.ceil(mpj / 3 * required_jigs / loads_required)` is taken as the
 * exact rational ceiling of mpj*required_jigs / (3*loads_required).
 */
module LoadPlanning {
  import opened Wrappers

  /** A row of the jig inventory: units per jig, jigs per load, minutes per jig. */
  datatype Jig = Jig(jigType: string, maxUPJ: int, maxJPL: int, mpj: int)

  /** The capacity figures a job is planned with. */
  datatype Capacity = Capacity(upj: int, jpl: int, mpj: int)

  const DefaultUPJ: int := 5
  const DefaultJPL: int := 10
  const DefaultMPJ: int := 2

  /** Python truthiness of a nullable integer column: set and non-zero. */
  predicate Truthy(v: Option<int>) { v.Some? && v.value != 0 }

  /** `custom or fallback` */
  function OrElse(custom: Option<int>, fallback: int): int
  {
    if Truthy(custom) then custom.value else fallback
  }

  /**
   * Field-by-field fallback: the part's custom value when truthy, else the jig's
   * figure, else the default 5 / 10 / 2.
   */
  function ResolveCapacity(customUpj: Option<int>, customJpl: Option<int>, customMpj: Option<int>, jig: Option<Jig>): (c: Capacity)
    ensures Truthy(customUpj) ==> c.upj == customUpj.value
    ensures !Truthy(customUpj) && jig.Some? ==> c.upj == jig.value.maxUPJ
    ensures !Truthy(customUpj) && jig.None? ==> c.upj == DefaultUPJ
    ensures Truthy(customJpl) ==> c.jpl == customJpl.value
    ensures !Truthy(customJpl) && jig.Some? ==> c.jpl == jig.value.maxJPL
    ensures !Truthy(customJpl) && jig.None? ==> c.jpl == DefaultJPL
    ensures Truthy(customMpj) ==> c.mpj == customMpj.value
    ensures !Truthy(customMpj) && jig.Some? ==> c.mpj == jig.value.mpj
    ensures !Truthy(customMpj) && jig.None? ==> c.mpj == DefaultMPJ
  {
    Capacity(
      OrElse(customUpj, if jig.Some? then jig.value.maxUPJ else DefaultUPJ),
      OrElse(customJpl, if jig.Some? then jig.value.maxJPL else DefaultJPL),
      OrElse(customMpj, if jig.Some? then jig.value.mpj else DefaultMPJ))
  }

  /** Python's floor division `a // b`. */
  function FloorDiv(a: int, b: int): int
    requires b != 0
  {
    if b > 0 then a / b else (-a) / (-b)
  }

  /** Python's `math.ceil(a / b)` on integers, for either sign of the divisor. */
  function CeilDiv(a: int, b: int): (r: int)
    requires b != 0
    ensures b > 0 ==> (r - 1) * b < a <= r * b
  {
    -FloorDiv(-a, b)
  }

  datatype PlanError = ZeroDivision

  /** What the decomposition yields for one order line. */
  datatype LoadPlan = LoadPlan(
    capacity: Capacity,
    quantity: int,
    requiredJigs: int,
    loadsRequired: int,
    unitsPerLoad: int,
    quantityOfFinalLoad: int,
    jiggingDurationPerLoad: int,
    totalJiggingDuration: int,
    packingDuration: int,
    unjiggingDuration: int)

  /**
   * Splits `quantity` units into jigs and loads. The source divides by upj, by jpl
   * (for the buzz-bar ratio) and by loads_required; each zero divisor raises
   * ZeroDivisionError, modelled as Failure.
   */
  function Decompose(quantity: int, cap: Capacity): (r: Result<LoadPlan, PlanError>)
    ensures r.Success? ==> r.value.capacity == cap && r.value.quantity == quantity && r.value.loadsRequired != 0
    ensures cap.upj == 0 || cap.jpl == 0 ==> r.Failure?
  {
    if cap.upj == 0 || cap.jpl == 0 then Failure(ZeroDivision)
    else
      var requiredJigs := CeilDiv(quantity, cap.upj);
      var loadsRequired := CeilDiv(requiredJigs, cap.jpl);
      if loadsRequired == 0 then Failure(ZeroDivision)
      else
        var unitsPerLoad := cap.upj * cap.jpl;
        var quantityOfFinalLoad := if loadsRequired > 1 then quantity - unitsPerLoad * (loadsRequired - 1) else quantity;
        var jiggingDurationPerLoad := CeilDiv(cap.mpj * requiredJigs, loadsRequired);
        Success(LoadPlan(
          cap, quantity, requiredJigs, loadsRequired, unitsPerLoad, quantityOfFinalLoad,
          jiggingDurationPerLoad,
          jiggingDurationPerLoad * loadsRequired,
          CeilDiv(cap.mpj * requiredJigs, 3 * loadsRequired),
          CeilDiv(5 * requiredJigs, 2 * loadsRequired)))
  }

  predicate PositiveCapacity(cap: Capacity) { cap.upj > 0 && cap.jpl > 0 && cap.mpj > 0 }

  // ---------------------------------------------------------------------------
  // Properties of the decomposition
  // ---------------------------------------------------------------------------

  /** Each capacity figure is resolved from its own custom value alone. */
  lemma ResolveFieldsIndependent(u: Option<int>, j: Option<int>, m: Option<int>,
                                 u': Option<int>, j': Option<int>, m': Option<int>, jig: Option<Jig>)
    ensures ResolveCapacity(u, j, m, jig).upj == ResolveCapacity(u, j', m', jig).upj
    ensures ResolveCapacity(u, j, m, jig).jpl == ResolveCapacity(u', j, m', jig).jpl
    ensures ResolveCapacity(u, j, m, jig).mpj == ResolveCapacity(u', j', m, jig).mpj
  {
  }

  /** Positive jig figures and positive-or-absent overrides give a usable capacity. */
  lemma ResolvePositive(u: Option<int>, j: Option<int>, m: Option<int>, jig: Option<Jig>)
    requires u.Some? ==> u.value >= 0
    requires j.Some? ==> j.value >= 0
    requires m.Some? ==> m.value >= 0
    requires jig.Some? ==> jig.value.maxUPJ > 0 && jig.value.maxJPL > 0 && jig.value.mpj > 0
    ensures PositiveCapacity(ResolveCapacity(u, j, m, jig))
  {
  }

  /** A positive quantity with a positive capacity always decomposes, into at least one load. */
  lemma DecomposeSucceeds(quantity: int, cap: Capacity)
    requires quantity > 0 && cap.upj > 0 && cap.jpl > 0
    ensures Decompose(quantity, cap).Success?
    ensures Decompose(quantity, cap).value.requiredJigs >= 1
    ensures Decompose(quantity, cap).value.loadsRequired >= 1
  {
    var rj := CeilDiv(quantity, cap.upj);
    if rj <= 0 {
      MulMonotone(cap.upj, rj, 0);
    }
    var loads := CeilDiv(rj, cap.jpl);
    if loads <= 0 {
      MulMonotone(cap.jpl, loads, 0);
    }
  }

  /** A zero quantity reaches the division by zero loads. */
  lemma DecomposeZeroQuantityFails(cap: Capacity)
    requires cap.upj > 0 && cap.jpl > 0
    ensures Decompose(0, cap).Failure?
  {
    assert FloorDiv(0, cap.upj) == 0;
    assert CeilDiv(0, cap.upj) == 0;
    assert FloorDiv(0, cap.jpl) == 0;
    assert CeilDiv(0, cap.jpl) == 0;
  }

  /** The jigs hold the quantity with less than one jig to spare, and the loads hold the jigs likewise. */
  lemma DecomposeCeilingBounds(quantity: int, cap: Capacity)
    requires quantity > 0 && cap.upj > 0 && cap.jpl > 0
    ensures var p := Decompose(quantity, cap).value;
      && cap.upj * (p.requiredJigs - 1) < quantity <= cap.upj * p.requiredJigs
      && cap.jpl * (p.loadsRequired - 1) < p.requiredJigs <= cap.jpl * p.loadsRequired
      && p.unitsPerLoad == cap.upj * cap.jpl
  {
    DecomposeSucceeds(quantity, cap);
  }

  /**
   * The final load is never empty and never over-full, and both branches of the source
   * agree with quantity - units_per_load * (loads_required - 1).
   */
  lemma {:induction false} FinalLoadBounds(quantity: int, cap: Capacity)
    requires quantity > 0 && cap.upj > 0 && cap.jpl > 0
    ensures var p := Decompose(quantity, cap).value;
      && p.quantityOfFinalLoad == quantity - p.unitsPerLoad * (p.loadsRequired - 1)
      && 1 <= p.quantityOfFinalLoad <= p.unitsPerLoad
      && p.unitsPerLoad * (p.loadsRequired - 1) < quantity <= p.unitsPerLoad * p.loadsRequired
  {
    DecomposeSucceeds(quantity, cap);
    DecomposeCeilingBounds(quantity, cap);
    var p := Decompose(quantity, cap).value;
    FinalLoadArithmetic(quantity, cap.upj, cap.jpl, p.requiredJigs, p.loadsRequired);
  }

  /** The arithmetic behind FinalLoadBounds, on plain integers. */
  lemma FinalLoadArithmetic(q: int, upj: int, jpl: int, rj: int, loads: int)
    requires upj > 0 && jpl > 0
    requires upj * (rj - 1) < q <= upj * rj
    requires jpl * (loads - 1) < rj <= jpl * loads
    ensures (upj * jpl) * (loads - 1) < q <= (upj * jpl) * loads
  {
    MulMonotone(upj, rj, jpl * loads);
    MulMonotone(upj, jpl * (loads - 1), rj - 1);
    assert (upj * jpl) * (loads - 1) == upj * (jpl * (loads - 1));
    assert (upj * jpl) * loads == upj * (jpl * loads);
  }

  lemma MulMonotone(k: int, a: int, b: int)
    requires k >= 0 && a <= b
    ensures k * a <= k * b
  {
  }

  /**
   * Jigging time per load is the ceiling share of mpj minutes per jig, so all loads
   * together jig for at least mpj * required_jigs minutes and less than one minute
   * per load more; polishing and blasting are scaled from that total.
   */
  lemma JiggingCoversAllJigs(quantity: int, cap: Capacity)
    requires quantity > 0 && cap.upj > 0 && cap.jpl > 0
    ensures var p := Decompose(quantity, cap).value;
      && cap.mpj * p.requiredJigs <= p.totalJiggingDuration < cap.mpj * p.requiredJigs + p.loadsRequired
  {
    DecomposeSucceeds(quantity, cap);
    var p := Decompose(quantity, cap).value;
    assert p.totalJiggingDuration == p.jiggingDurationPerLoad * p.loadsRequired;
  }

  /** The packing time per load is the ceiling of mpj/3 * required_jigs / loads_required. */
  lemma PackingBounds(quantity: int, cap: Capacity)
    requires quantity > 0 && cap.upj > 0 && cap.jpl > 0
    ensures var p := Decompose(quantity, cap).value;
      && 3 * p.loadsRequired * (p.packingDuration - 1) < cap.mpj * p.requiredJigs <= 3 * p.loadsRequired * p.packingDuration
      && 2 * p.loadsRequired * (p.unjiggingDuration - 1) < 5 * p.requiredJigs <= 2 * p.loadsRequired * p.unjiggingDuration
  {
    DecomposeSucceeds(quantity, cap);
    var p := Decompose(quantity, cap).value;
    CeilDivScaled(cap.mpj * p.requiredJigs, 3, p.loadsRequired);
    CeilDivScaled(5 * p.requiredJigs, 2, p.loadsRequired);
  }

  /** CeilDiv's bounds with the divisor written as a product. */
  lemma CeilDivScaled(a: int, k: int, loads: int)
    requires k > 0 && loads > 0
    ensures k * loads * (CeilDiv(a, k * loads) - 1) < a <= k * loads * CeilDiv(a, k * loads)
  {
    var r := CeilDiv(a, k * loads);
    assert (r - 1) * (k * loads) == k * loads * (r - 1);
    assert r * (k * loads) == k * loads * r;
  }

  /** 47 units on the default 5/10/2 jig: ten jigs in one load of 50, all 47 in it, 20 minutes of jigging. */
  lemma ExampleSingleLoad()
    ensures var p := Decompose(47, Capacity(5, 10, 2)).value;
      && p.requiredJigs == 10 && p.loadsRequired == 1 && p.unitsPerLoad == 50
      && p.quantityOfFinalLoad == 47 && p.jiggingDurationPerLoad == 20
  {
  }

  /** 123 units on the default jig: 25 jigs in three loads, the last holding 23. */
  lemma ExampleThreeLoads()
    ensures var p := Decompose(123, Capacity(5, 10, 2)).value;
      && p.requiredJigs == 25 && p.loadsRequired == 3 && p.unitsPerLoad == 50
      && p.quantityOfFinalLoad == 23
  {
  }
}
