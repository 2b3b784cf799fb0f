/**
 * The timeline side of azureapp.py: the GanttJob slots and COLUMN_MAPPING, the name
 * normalisation and per-load walk of create_gantt_job, the slot moves of
 * adjust_gantt_job_timestamps and the translation of shift_gantt_job.
 *
 * Instants are real minutes on one clock (the chosen start time is just a number
 * here); a slot's start or end is either a time or null, a null being a missing key.
 */
module Timelines {
  import opened Wrappers
  import opened Routes

  // ---------------------------------------------------------------------------
  // Slots and the column mapping
  // ---------------------------------------------------------------------------

  /** The start/end column pairs of a GanttJob row. */
  datatype Slot =
    | Polishing | Blasting | Brightening | OffLineRinse | Jigging | Loading | Degrease
    | WaterRinse1 | WaterRinse2 | Etch | WaterRinse3 | WaterRinse4 | Desmut | WaterRinse5 | WaterRinse6
    | Anodising1A | Anodising1B | Anodising2A | Anodising2B | WaterRinse7 | WaterRinse8
    | GoldDye | BlackDye | Sealing | ColdSealA | ColdSealB | BoilingWaterSeal
    | Unloading | DyeOffline | HotSeal | Drying | Unjigging | Packing

  /** `COLUMN_MAPPING.get(name)`: the slot an operation of this name is scheduled into. */
  function ColumnMapping(name: string): Option<Slot>
  {
    match name
    case "Packing" => Some(Packing)
    case "Unjigging" => Some(Unjigging)
    case "Drying" => Some(Drying)
    case "Hot Seal" => Some(HotSeal)
    case "Off-line Dye" => Some(DyeOffline)
    case "Unloading" => Some(Unloading)
    case "Black Dye" => Some(BlackDye)
    case "Gold Dye" => Some(GoldDye)
    case "Boiling Water Seal" => Some(BoilingWaterSeal)
    case "Water Rinse (8)" => Some(WaterRinse8)
    case "Cold Seal B" => Some(ColdSealB)
    case "Cold Seal A" => Some(ColdSealA)
    case "Water Rinse 6" => Some(WaterRinse6)
    case "Water Rinse 5" => Some(WaterRinse5)
    case "Anodising 2B" => Some(Anodising2B)
    case "Anodising 2A" => Some(Anodising2A)
    case "Anodising 1B" => Some(Anodising1B)
    case "Anodising 1A" => Some(Anodising1A)
    case "Desmut" => Some(Desmut)
    case "Caustic Etch" => Some(Etch)
    case "Water Rinse 4" => Some(WaterRinse4)
    case "Water Rinse 3" => Some(WaterRinse3)
    case "Water Rinse 2" => Some(WaterRinse2)
    case "Water Rinse 1" => Some(WaterRinse1)
    case "Degrease" => Some(Degrease)
    case "Loading" => Some(Loading)
    case "Jigging" => Some(Jigging)
    case "Brightening" => Some(Brightening)
    case "Blasting" => Some(Blasting)
    case "Polishing" => Some(Polishing)
    case _ => None
  }

  /** The operation name whose slot this is, for the slots COLUMN_MAPPING lists. */
  function SlotKey(s: Slot): Option<string>
  {
    match s
    case Packing => Some("Packing")
    case Unjigging => Some("Unjigging")
    case Drying => Some("Drying")
    case HotSeal => Some("Hot Seal")
    case DyeOffline => Some("Off-line Dye")
    case Unloading => Some("Unloading")
    case BlackDye => Some("Black Dye")
    case GoldDye => Some("Gold Dye")
    case BoilingWaterSeal => Some("Boiling Water Seal")
    case WaterRinse8 => Some("Water Rinse (8)")
    case ColdSealB => Some("Cold Seal B")
    case ColdSealA => Some("Cold Seal A")
    case WaterRinse6 => Some("Water Rinse 6")
    case WaterRinse5 => Some("Water Rinse 5")
    case Anodising2B => Some("Anodising 2B")
    case Anodising2A => Some("Anodising 2A")
    case Anodising1B => Some("Anodising 1B")
    case Anodising1A => Some("Anodising 1A")
    case Desmut => Some("Desmut")
    case Etch => Some("Caustic Etch")
    case WaterRinse4 => Some("Water Rinse 4")
    case WaterRinse3 => Some("Water Rinse 3")
    case WaterRinse2 => Some("Water Rinse 2")
    case WaterRinse1 => Some("Water Rinse 1")
    case Degrease => Some("Degrease")
    case Loading => Some("Loading")
    case Jigging => Some("Jigging")
    case Brightening => Some("Brightening")
    case Blasting => Some("Blasting")
    case Polishing => Some("Polishing")
    case OffLineRinse => None
    case WaterRinse7 => None
    case Sealing => None
  }

  /** A slot that COLUMN_MAPPING lists (and that the shift therefore visits). */
  predicate Mapped(s: Slot) { SlotKey(s).Some? }

  /** The slots in the order of COLUMN_MAPPING.values(). */
  const MappedSlots: seq<Slot> := [
    Packing, Unjigging, Drying, HotSeal, DyeOffline, Unloading, BlackDye, GoldDye,
    BoilingWaterSeal, WaterRinse8, ColdSealB, ColdSealA, WaterRinse6, WaterRinse5,
    Anodising2B, Anodising2A, Anodising1B, Anodising1A, Desmut, Etch,
    WaterRinse4, WaterRinse3, WaterRinse2, WaterRinse1, Degrease, Loading, Jigging,
    Brightening, Blasting, Polishing]

  /** The GanttJob column names of a slot: its start column and its end column. */
  function Columns(s: Slot): (string, string)
  {
    match s
    case Polishing => ("polishing_start", "polishing_end")
    case Blasting => ("blasting_start", "blasting_end")
    case Brightening => ("brightening_start", "brightening_end")
    case OffLineRinse => ("off_line_rinse_start", "off_line_rinse_end")
    case Jigging => ("jigging_start", "jigging_end")
    case Loading => ("loading_start", "loading_end")
    case Degrease => ("degrease_start", "degrease_end")
    case WaterRinse1 => ("water_rinse_1_start", "water_rinse_1_end")
    case WaterRinse2 => ("water_rinse_2_start", "water_rinse_2_end")
    case Etch => ("etch_start", "etch_end")
    case WaterRinse3 => ("water_rinse_3_start", "water_rinse_3_end")
    case WaterRinse4 => ("water_rinse_4_start", "water_rinse_4_end")
    case Desmut => ("desmut_start", "desmut_end")
    case WaterRinse5 => ("water_rinse_5_start", "water_rinse_5_end")
    case WaterRinse6 => ("water_rinse_6_start", "water_rinse_6_end")
    case Anodising1A => ("anodising_1a_start", "anodising_1a_end")
    case Anodising1B => ("anodising_1b_start", "anodising_1b_end")
    case Anodising2A => ("anodising_2a_start", "anodising_2a_end")
    case Anodising2B => ("anodising_2b_start", "anodising_2b_end")
    case WaterRinse7 => ("water_rinse_7_start", "water_rinse_7_end")
    case WaterRinse8 => ("water_rinse_8_start", "water_rinse_8_end")
    case GoldDye => ("gold_dye_start", "gold_dye_end")
    case BlackDye => ("black_dye_start", "black_dye_end")
    case Sealing => ("sealing_start", "sealing_end")
    case ColdSealA => ("cold_seal_a_start", "cold_seal_a_end")
    case ColdSealB => ("cold_seal_b_start", "cold_seal_b_end")
    case BoilingWaterSeal => ("boiling_water_seal_start", "boiling_water_seal_end")
    case Unloading => ("unloading_start", "unloading_end")
    case DyeOffline => ("dye_offline_start", "dye_offline_end")
    case HotSeal => ("hot_seal_start", "hot_seal_end")
    case Drying => ("drying_start", "drying_end")
    case Unjigging => ("unjigging_start", "unjigging_end")
    case Packing => ("packing_start", "packing_end")
  }

  // ---------------------------------------------------------------------------
  // Name normalisation
  // ---------------------------------------------------------------------------

  /** The placeholder names the scheduler replaces before mapping operations to slots. */
  function NormaliseName(name: string): string
  {
    if name == "Cold Seal 30 min" || name == "Cold Seal 15 min" then "Cold Seal A"
    else if name == "Anodising" then "Anodising 1A"
    else if name == "Water Rinse (1 or 2)" then "Water Rinse 1"
    else if name == "Water Rinse (3 or 4)" then "Water Rinse 3"
    else if name == "Water Rinse (5 or 6)" then "Water Rinse 5"
    else name
  }

  /** A route with every operation renamed by NormaliseName. */
  function Normalised(ops: seq<Operation>): (r: seq<Operation>)
    ensures |r| == |ops|
    ensures forall i :: 0 <= i < |ops| ==> r[i] == ops[i].(name := NormaliseName(ops[i].name))
  {
    seq(|ops|, i requires 0 <= i < |ops| => ops[i].(name := NormaliseName(ops[i].name)))
  }

  // ---------------------------------------------------------------------------
  // Timelines and the per-load walk
  // ---------------------------------------------------------------------------

  /** The start and end times of one GanttJob row; a slot without a key is null. */
  datatype Timeline = Timeline(starts: map<Slot, real>, ends: map<Slot, real>)

  const EmptyTimeline: Timeline := Timeline(map[], map[])

  /** `setattr` of a slot's start and end. */
  function Place(t: Timeline, s: Slot, start: real, end: real): Timeline
  {
    Timeline(t.starts[s := start], t.ends[s := end])
  }

  /**
   * One load's pass over the (normalised) operations from `cursor`: an operation with
   * a slot is placed at the cursor and moves it on by its duration; an operation
   * without one writes nothing and takes no time. Returns the row and the final cursor.
   */
  function Walk(ops: seq<Operation>, cursor: real): (Timeline, real)
  {
    if |ops| == 0 then (EmptyTimeline, cursor)
    else
      var (t, c) := Walk(ops[..|ops| - 1], cursor);
      var op := ops[|ops| - 1];
      match ColumnMapping(op.name)
      case None => (t, c)
      case Some(s) => (Place(t, s, c, c + op.duration), c + op.duration)
  }

  /** The total duration of the operations that have a slot. */
  function MappedDuration(ops: seq<Operation>): real
  {
    if |ops| == 0 then 0.0
    else MappedDuration(ops[..|ops| - 1]) + (if ColumnMapping(ops[|ops| - 1].name).Some? then ops[|ops| - 1].duration else 0.0)
  }

  /** The row of load `k` (1-based) when every load takes MappedDuration(ops) and load 1 starts at `start`. */
  function LoadTimeline(ops: seq<Operation>, start: real, k: int): Timeline
  {
    Walk(ops, LoadStart(ops, start, k)).0
  }

  /** When load `k` (1-based) starts: `k - 1` whole loads after `start`. */
  function LoadStart(ops: seq<Operation>, start: real, k: int): real
  {
    start + LoadOffset(ops, k)
  }

  /** How long after load 1 load `k` starts. */
  function LoadOffset(ops: seq<Operation>, k: int): real
  {
    (k - 1) as real * MappedDuration(ops)
  }

  // ---------------------------------------------------------------------------
  // The route adjuster
  // ---------------------------------------------------------------------------

  /** `m[to] = m[from]; m[from] = None`, a null source making the target null. */
  function MoveEntry(m: map<Slot, real>, from: Slot, to: Slot): (r: map<Slot, real>)
    requires from != to
    ensures from !in r
    ensures (to in r <==> from in m) && (from in m ==> r[to] == m[from])
    ensures forall x :: x != from && x != to ==> (x in r <==> x in m) && (x in r ==> r[x] == m[x])
  {
    (if from in m then m[to := m[from]] else m - {to}) - {from}
  }

  /** Moves a slot's start and end into another slot and clears the source. */
  function Move(t: Timeline, from: Slot, to: Slot): Timeline
    requires from != to
  {
    Timeline(MoveEntry(t.starts, from, to), MoveEntry(t.ends, from, to))
  }

  const EvenRinseRoute: string := "even_rinse_cold_seal_b"

  /** The anodising_map of the adjuster: the tank that takes over Anodising 1A. */
  function TankSlot(tank: string): (r: Option<Slot>)
    ensures r != Some(Anodising1A)
  {
    if tank == "Anodising 1B" then Some(Anodising1B)
    else if tank == "Anodising 2A" then Some(Anodising2A)
    else if tank == "Anodising 2B" then Some(Anodising2B)
    else None
  }

  /** The even-rinse route: rinses 1, 3, 5 and Cold Seal A move to 2, 4, 6 and Cold Seal B. */
  function EvenRinsed(t: Timeline): Timeline
  {
    Move(Move(Move(Move(t, WaterRinse1, WaterRinse2), WaterRinse3, WaterRinse4), WaterRinse5, WaterRinse6), ColdSealA, ColdSealB)
  }

  /** One row after adjust_gantt_job_timestamps with the chosen rinse/seal route and anodising tank. */
  function Adjusted(t: Timeline, route: string, tank: string): Timeline
  {
    match TankSlot(tank)
    case Some(target) => Move(Rinsed(t, route), Anodising1A, target)
    case None => Rinsed(t, route)
  }

  /** The rinse/seal step of the adjuster: only the even-rinse route changes the row. */
  function Rinsed(t: Timeline, route: string): Timeline
  {
    if route == EvenRinseRoute then EvenRinsed(t) else t
  }

  // ---------------------------------------------------------------------------
  // The shifter
  // ---------------------------------------------------------------------------

  /** Whether the shift moves slot `s`: it is listed in COLUMN_MAPPING and has both a start and an end. */
  predicate Shiftable(t: Timeline, s: Slot)
  {
    Mapped(s) && s in t.starts && s in t.ends
  }

  /** Every slot with both times set moves by `delta` minutes; every other entry stays. */
  function Shifted(t: Timeline, delta: real): Timeline
  {
    Timeline(
      map s | s in t.starts :: if Shiftable(t, s) then t.starts[s] + delta else t.starts[s],
      map s | s in t.ends :: if Shiftable(t, s) then t.ends[s] + delta else t.ends[s])
  }

  /** One step of the shift loop: slot `s` moves by `delta` when its start and end are both set. */
  function ShiftOne(t: Timeline, s: Slot, delta: real): Timeline
  {
    if s in t.starts && s in t.ends then Place(t, s, t.starts[s] + delta, t.ends[s] + delta) else t
  }

  /** The shift loop over `slots`, in order. */
  function ShiftAll(t: Timeline, delta: real, slots: seq<Slot>): Timeline
  {
    if |slots| == 0 then t
    else ShiftOne(ShiftAll(t, delta, slots[..|slots| - 1]), slots[|slots| - 1], delta)
  }

  /** A zero shift is refused; the as-written loop fails on unpacking or on the attribute it then looks up. */
  datatype ShiftError = NoShiftValue | UnpackError | NoSuchColumn

  /**
   * The shift loop as written: each field of COLUMN_MAPPING is a two-element list of
   * column names, and `for start_col, end_col in field` unpacks each column NAME into
   * two targets. A string unpacks into two names only when it has exactly two
   * characters; a one-character attribute would then be looked up, and GanttJob has
   * none, so every element of a non-empty field ends the loop with an error (and the
   * handler rolls the row back).
   */
  function ShiftAsWritten(t: Timeline, minutes: int): Result<Timeline, ShiftError>
  {
    if minutes == 0 then Failure(NoShiftValue)
    else ShiftFieldsAsWritten(t, minutes as real, MappedSlots)
  }

  function ShiftFieldsAsWritten(t: Timeline, delta: real, fields: seq<Slot>): Result<Timeline, ShiftError>
  {
    if |fields| == 0 then Success(t)
    else
      var (startCol, endCol) := Columns(fields[0]);
      match UnpackColumnNames([startCol, endCol])
      case Failure(e) => Failure(e)
      case Success(_) => ShiftFieldsAsWritten(t, delta, fields[1..])
  }

  /** Iterating a field and unpacking each of its strings into two one-character names, none of which is a column. */
  function UnpackColumnNames(field: seq<string>): Result<(), ShiftError>
  {
    if |field| == 0 then Success(())
    else if |field[0]| != 2 then Failure(UnpackError)
    else Failure(NoSuchColumn)
  }

  /** The corrected shift: rejects a zero shift, then translates every shiftable slot. */
  function Shift(t: Timeline, minutes: int): (r: Result<Timeline, ShiftError>)
    ensures minutes == 0 <==> r == Failure(NoShiftValue)
    ensures r.Success? ==> r.value == Shifted(t, minutes as real)
  {
    if minutes == 0 then Failure(NoShiftValue) else Success(Shifted(t, minutes as real))
  }
}
