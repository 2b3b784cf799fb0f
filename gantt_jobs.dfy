/**
 * The GanttJob rows of azureapp.py as objects whose timestamp columns the scheduler,
 * the adjuster and the shifter overwrite in place: create_gantt_job (normalise the
 * operations, then one row per load, loads back to back), adjust_gantt_job_timestamps
 * (rinse/seal route and anodising tank) and shift_gantt_job.
 *
 * Each method is proved against the value-level definitions of the Timelines module,
 * whose properties are proved in TimelineProperties.
 */
module GanttJobs {
  import opened Wrappers
  import opened Routes
  import opened Timelines
  import opened TimelineProperties

  /** One scheduled load of a component job: a row of the gantt_jobs table. */
  class GanttJob {
    const componentJobId: int
    const loadNumber: int
    /** The `<slot>_start` columns that are not null. */
    var starts: map<Slot, real>
    /** The `<slot>_end` columns that are not null. */
    var ends: map<Slot, real>

    /** The row's timestamps as a value. */
    function Times(): Timeline
      reads this
    {
      Timeline(starts, ends)
    }

    /** A new row: every timestamp column is null. */
    constructor (componentJobId: int, loadNumber: int)
      ensures this.componentJobId == componentJobId && this.loadNumber == loadNumber
      ensures Times() == EmptyTimeline
    {
      this.componentJobId := componentJobId;
      this.loadNumber := loadNumber;
      starts := map[];
      ends := map[];
    }

    /** `setattr` of a slot's start and end columns. */
    method SetSlot(s: Slot, start: real, end: real)
      modifies this
      ensures Times() == Place(old(Times()), s, start, end)
    {
      starts := starts[s := start];
      ends := ends[s := end];
    }

    /**
     * The inner loop of create_gantt_job over the operations of one load: each
     * operation with a slot gets the running time as its start, the running time moves
     * on by its duration and becomes its end. Returns the time the load finishes.
     */
    method AssignOperations(ops: seq<Operation>, cursor: real) returns (finish: real)
      requires Times() == EmptyTimeline
      modifies this
      ensures Times() == Walk(ops, cursor).0
      ensures finish == Walk(ops, cursor).1
    {
      finish := cursor;
      for i := 0 to |ops|
        invariant Times() == Walk(ops[..i], cursor).0
        invariant finish == Walk(ops[..i], cursor).1
      {
        assert ops[..i + 1][..i] == ops[..i];
        var op := ops[i];
        match ColumnMapping(op.name) {
          case Some(s) =>
            SetSlot(s, finish, finish + op.duration);
            finish := finish + op.duration;
          case None =>
        }
      }
      assert ops[..|ops|] == ops;
    }

    /** `job.<to> = job.<from>; job.<from> = None`, for the start and the end column. */
    method MoveSlot(from: Slot, to: Slot)
      requires from != to
      modifies this
      ensures Times() == Move(old(Times()), from, to)
    {
      if from in starts {
        starts := starts[to := starts[from]];
      } else {
        starts := starts - {to};
      }
      starts := starts - {from};
      if from in ends {
        ends := ends[to := ends[from]];
      } else {
        ends := ends - {to};
      }
      ends := ends - {from};
    }

    /** One step of the shift loop: `if start_time and end_time`, move both. */
    method ShiftSlot(s: Slot, delta: real)
      modifies this
      ensures Times() == ShiftOne(old(Times()), s, delta)
    {
      if s in starts && s in ends {
        SetSlot(s, starts[s] + delta, ends[s] + delta);
      }
    }

    /** The body of adjust_gantt_job_timestamps for one row. */
    method Adjust(route: string, tank: string)
      modifies this
      ensures Times() == Adjusted(old(Times()), route, tank)
    {
      if route == EvenRinseRoute {
        MoveSlot(WaterRinse1, WaterRinse2);
        MoveSlot(WaterRinse3, WaterRinse4);
        MoveSlot(WaterRinse5, WaterRinse6);
        MoveSlot(ColdSealA, ColdSealB);
      }
      match TankSlot(tank) {
        case Some(target) => MoveSlot(Anodising1A, target);
        case None =>
      }
    }

    /**
     * shift_gantt_job with the column loop corrected: a zero shift is refused and
     * changes nothing; otherwise every slot of COLUMN_MAPPING whose start and end are
     * both set moves by `minutes`, in the order of COLUMN_MAPPING.
     */
    method Shift(minutes: int) returns (r: Result<(), ShiftError>)
      modifies this
      ensures minutes == 0 ==> r == Failure(NoShiftValue) && Times() == old(Times())
      ensures minutes != 0 ==> r == Success(()) && Times() == Shifted(old(Times()), minutes as real)
    {
      if minutes == 0 {
        return Failure(NoShiftValue);
      }
      var delta := minutes as real;
      ghost var t := Times();
      for i := 0 to |MappedSlots|
        invariant Times() == ShiftAll(t, delta, MappedSlots[..i])
      {
        assert MappedSlots[..i + 1][..i] == MappedSlots[..i];
        ShiftSlot(MappedSlots[i], delta);
      }
      assert MappedSlots[..|MappedSlots|] == MappedSlots;
      ShiftAllIsShifted(t, delta);
      return Success(());
    }
  }

  /** The rows of a component job that the adjuster visits, none listed twice. */
  predicate Distinct(jobs: seq<GanttJob>)
  {
    forall i, j :: 0 <= i < j < |jobs| ==> jobs[i] != jobs[j]
  }

  /** adjust_gantt_job_timestamps: every row of the component job is adjusted once. */
  method AdjustGanttJobs(jobs: seq<GanttJob>, route: string, tank: string)
    requires Distinct(jobs)
    modifies set j | j in jobs
    ensures forall k :: 0 <= k < |jobs| ==> jobs[k].Times() == Adjusted(old(jobs[k].Times()), route, tank)
  {
    ghost var before := seq(|jobs|, k requires 0 <= k < |jobs| reads set j | j in jobs => jobs[k].Times());
    ghost var after := seq(|jobs|, k requires 0 <= k < |jobs| => Adjusted(before[k], route, tank));
    for i := 0 to |jobs|
      invariant forall k :: 0 <= k < i ==> jobs[k].Times() == after[k]
      invariant forall k :: i <= k < |jobs| ==> jobs[k].Times() == before[k]
    {
      assert forall k :: 0 <= k < |jobs| && k != i ==> jobs[k] != jobs[i];
      jobs[i].Adjust(route, tank);
    }
  }

  /** The renaming loop of create_gantt_job, done in place on the operation list. */
  method NormaliseOperations(ops: array<Operation>)
    modifies ops
    ensures ops[..] == Normalised(old(ops[..]))
  {
    for i := 0 to ops.Length
      invariant forall k :: 0 <= k < i ==> ops[k] == old(ops[k]).(name := NormaliseName(old(ops[k]).name))
      invariant forall k :: i <= k < ops.Length ==> ops[k] == old(ops[k])
    {
      ops[i] := ops[i].(name := NormaliseName(ops[i].name));
    }
  }

  /** Why create_gantt_job answers 400 before writing anything. */
  datatype CreateError = NoOperations

  /**
   * create_gantt_job after the component job has been found: refuses an empty operation
   * list; otherwise normalises the names in place, writes one fresh row per load with
   * load k starting where load k - 1 ended, and runs the adjuster on the new rows.
   */
  method CreateGanttJobs(componentJobId: int, operations: array<Operation>, loadsRequired: int,
                         start: real, route: string, tank: string)
    returns (r: Result<seq<GanttJob>, CreateError>)
    modifies operations
    ensures operations.Length == 0 <==> r == Failure(NoOperations)
    ensures operations[..] == Normalised(old(operations[..]))
    ensures r.Success? ==>
      && |r.value| == (if loadsRequired > 0 then loadsRequired else 0)
      && Distinct(r.value)
      && forall k :: 0 <= k < |r.value| ==>
           && fresh(r.value[k])
           && r.value[k].componentJobId == componentJobId
           && r.value[k].loadNumber == k + 1
           && r.value[k].Times() == Adjusted(LoadTimeline(operations[..], start, k + 1), route, tank)
  {
    if operations.Length == 0 {
      return Failure(NoOperations);
    }
    NormaliseOperations(operations);
    var ops := operations[..];
    var jobs: seq<GanttJob> := [];
    var lastEnd := start;
    var load := 1;
    while load <= loadsRequired
      invariant 1 <= load <= (if loadsRequired > 0 then loadsRequired + 1 else 1)
      invariant operations[..] == ops
      invariant |jobs| == load - 1
      invariant lastEnd == LoadStart(ops, start, load)
      invariant Distinct(jobs)
      invariant forall k :: 0 <= k < |jobs| ==>
        && fresh(jobs[k])
        && jobs[k].componentJobId == componentJobId
        && jobs[k].loadNumber == k + 1
        && jobs[k].Times() == LoadTimeline(ops, start, k + 1)
    {
      var job := new GanttJob(componentJobId, load);
      var finish := job.AssignOperations(ops, lastEnd);
      LoadsSequential(ops, start, load);
      jobs := jobs + [job];
      lastEnd := finish;
      load := load + 1;
    }
    AdjustGanttJobs(jobs, route, tank);
    return Success(jobs);
  }
}
