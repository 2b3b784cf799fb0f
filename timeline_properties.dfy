/** What the scheduler, the adjuster and the shifter promise about a GanttJob row. */
module TimelineProperties {
  import opened Wrappers
  import opened Routes
  import opened Timelines

  // ---------------------------------------------------------------------------
  // The column mapping
  // ---------------------------------------------------------------------------

  /** COLUMN_MAPPING is one-to-one: a name maps to a slot exactly when the slot's key is that name. */
  lemma ColumnMappingInverse(name: string, s: Slot)
    ensures ColumnMapping(name) == Some(s) <==> SlotKey(s) == Some(name)
  {
    if ColumnMapping(name) == Some(s) {
      KeyOfSlot(name);
    }
    if SlotKey(s) == Some(name) {
      SlotOfKey(s);
    }
  }

  lemma SlotOfKey(s: Slot)
    requires Mapped(s)
    ensures ColumnMapping(SlotKey(s).value) == Some(s)
  {
  }

  lemma KeyOfSlot(name: string)
    requires ColumnMapping(name).Some?
    ensures SlotKey(ColumnMapping(name).value) == Some(name)
  {
  }

  /** The shift visits exactly the slots COLUMN_MAPPING lists. */
  lemma MappedSlotsComplete(s: Slot)
    ensures s in MappedSlots <==> Mapped(s)
  {
    if Mapped(s) {
      PositionOfMapped(s);
    } else {
      forall i | 0 <= i < |MappedSlots| ensures MappedSlots[i] != s {
        MappedSlotPosition(i);
      }
    }
  }

  // ---------------------------------------------------------------------------
  // Normalisation
  // ---------------------------------------------------------------------------

  /** Exactly six placeholder names are renamed; every other name is left alone. */
  lemma NormaliseChangesOnly(name: string)
    ensures NormaliseName(name) != name <==>
      name in {"Cold Seal 30 min", "Cold Seal 15 min", "Anodising", "Water Rinse (1 or 2)", "Water Rinse (3 or 4)", "Water Rinse (5 or 6)"}
  {
  }

  /** Normalising twice is normalising once, for a name and for a whole route. */
  lemma NormaliseIdempotent(ops: seq<Operation>)
    ensures forall i :: 0 <= i < |ops| ==> NormaliseName(NormaliseName(ops[i].name)) == NormaliseName(ops[i].name)
    ensures Normalised(Normalised(ops)) == Normalised(ops)
  {
  }

  /** Normalisation keeps the length, the order, the durations, the notes and the load counts. */
  lemma NormalisedKeepsDurations(ops: seq<Operation>)
    ensures |Normalised(ops)| == |ops|
    ensures forall i :: 0 <= i < |ops| ==>
      && Normalised(ops)[i].duration == ops[i].duration
      && Normalised(ops)[i].info == ops[i].info
      && Normalised(ops)[i].loadsRequired == ops[i].loadsRequired
  {
  }

  // ---------------------------------------------------------------------------
  // The per-load walk
  // ---------------------------------------------------------------------------

  /** A load ends MappedDuration(ops) after it starts: only operations with a slot take time. */
  lemma {:induction false} WalkEnd(ops: seq<Operation>, c: real)
    ensures Walk(ops, c).1 == c + MappedDuration(ops)
  {
    if |ops| > 0 {
      WalkEnd(ops[..|ops| - 1], c);
    }
  }

  /** Every slot a walk writes gets both a start and an end, and it is the slot of some operation of the route. */
  lemma {:induction false} WalkSlots(ops: seq<Operation>, c: real, s: Slot)
    ensures var t := Walk(ops, c).0;
      && (s in t.starts <==> s in t.ends)
      && (s in t.starts <==> exists j :: 0 <= j < |ops| && ColumnMapping(ops[j].name) == Some(s))
  {
    if |ops| > 0 {
      var init := ops[..|ops| - 1];
      WalkSlots(init, c, s);
      if exists j :: 0 <= j < |ops| && ColumnMapping(ops[j].name) == Some(s) {
        var j :| 0 <= j < |ops| && ColumnMapping(ops[j].name) == Some(s);
        if j < |ops| - 1 {
          assert init[j] == ops[j];
        }
      }
      if exists j :: 0 <= j < |init| && ColumnMapping(init[j].name) == Some(s) {
        var j :| 0 <= j < |init| && ColumnMapping(init[j].name) == Some(s);
        assert ops[j] == init[j];
      }
    }
  }

  /**
   * When an operation is the last one of the route mapped to slot `s`, the slot holds
   * that operation's interval: it starts once the mapped operations before it are done
   * and lasts the operation's duration. Earlier occurrences are overwritten.
   */
  lemma {:induction false} WalkLastOccurrence(ops: seq<Operation>, c: real, j: int, s: Slot)
    requires 0 <= j < |ops| && ColumnMapping(ops[j].name) == Some(s)
    requires forall k :: j < k < |ops| ==> ColumnMapping(ops[k].name) != Some(s)
    ensures var t := Walk(ops, c).0;
      && s in t.starts && s in t.ends
      && t.starts[s] == c + MappedDuration(ops[..j])
      && t.ends[s] == t.starts[s] + ops[j].duration
  {
    var init := ops[..|ops| - 1];
    if j == |ops| - 1 {
      assert ops[..j] == init;
      WalkEnd(init, c);
    } else {
      forall k | j < k < |init| ensures ColumnMapping(init[k].name) != Some(s) {
        assert init[k] == ops[k];
      }
      assert init[j] == ops[j];
      WalkLastOccurrence(init, c, j, s);
      assert init[..j] == ops[..j];
    }
  }

  /** Mapped time only grows along a route when no duration is negative. */
  predicate NonNegativeDurations(ops: seq<Operation>)
  {
    forall i :: 0 <= i < |ops| ==> ops[i].duration >= 0.0
  }

  lemma {:induction false} MappedDurationPrefix(ops: seq<Operation>, j: int)
    requires NonNegativeDurations(ops) && 0 <= j <= |ops|
    ensures 0.0 <= MappedDuration(ops[..j]) <= MappedDuration(ops)
  {
    if j < |ops| {
      var init := ops[..|ops| - 1];
      assert init[..j] == ops[..j];
      MappedDurationPrefix(init, j);
    } else {
      assert ops[..j] == ops;
      if |ops| > 0 {
        var init := ops[..|ops| - 1];
        assert init[..|init|] == init;
        MappedDurationPrefix(init, |init|);
      }
    }
  }

  /**
   * With no negative duration, every interval of a load lies within the load:
   * it starts no earlier than the load, ends no earlier than it starts, and ends by
   * the load's final cursor.
   */
  lemma {:induction false} WalkWithinLoad(ops: seq<Operation>, c: real, s: Slot)
    requires NonNegativeDurations(ops)
    ensures var t := Walk(ops, c).0;
      s in t.starts && s in t.ends ==> c <= t.starts[s] <= t.ends[s] <= c + MappedDuration(ops)
  {
    var t := Walk(ops, c).0;
    if s in t.starts && s in t.ends {
      WalkSlots(ops, c, s);
      var j :| 0 <= j < |ops| && ColumnMapping(ops[j].name) == Some(s);
      var last := LastMapped(ops, s, j);
      WalkLastOccurrence(ops, c, last, s);
      MappedDurationPrefix(ops, last);
      MappedDurationPrefix(ops, last + 1);
      MappedDurationStep(ops, last);
    }
  }

  lemma MappedDurationStep(ops: seq<Operation>, j: int)
    requires 0 <= j < |ops|
    ensures MappedDuration(ops[..j + 1]) ==
      MappedDuration(ops[..j]) + (if ColumnMapping(ops[j].name).Some? then ops[j].duration else 0.0)
  {
    assert ops[..j + 1][..j] == ops[..j];
  }

  /** The last index at or after `j` whose operation maps to `s`. */
  function LastMapped(ops: seq<Operation>, s: Slot, j: int): (last: int)
    requires 0 <= j < |ops| && ColumnMapping(ops[j].name) == Some(s)
    ensures j <= last < |ops| && ColumnMapping(ops[last].name) == Some(s)
    ensures forall k :: last < k < |ops| ==> ColumnMapping(ops[k].name) != Some(s)
    decreases |ops| - j
  {
    if exists k :: j < k < |ops| && ColumnMapping(ops[k].name) == Some(s) then
      var k :| j < k < |ops| && ColumnMapping(ops[k].name) == Some(s);
      LastMapped(ops, s, k)
    else j
  }

  /** Every slot of a walked row is one that COLUMN_MAPPING lists, with start and end set together. */
  predicate Paired(t: Timeline)
  {
    && t.starts.Keys == t.ends.Keys
    && forall s :: s in t.starts ==> Mapped(s)
  }

  lemma {:induction false} WalkPaired(ops: seq<Operation>, c: real)
    ensures Paired(Walk(ops, c).0)
  {
    if |ops| > 0 {
      WalkPaired(ops[..|ops| - 1], c);
      var op := ops[|ops| - 1];
      if ColumnMapping(op.name).Some? {
        ColumnMappingInverse(op.name, ColumnMapping(op.name).value);
      }
    }
  }

  /** Starting a load `d` minutes later moves every interval of the load by `d`. */
  lemma {:induction false} WalkShift(ops: seq<Operation>, c: real, d: real)
    ensures Walk(ops, c + d).0 == Shifted(Walk(ops, c).0, d)
    ensures Walk(ops, c + d).1 == Walk(ops, c).1 + d
  {
    if |ops| == 0 {
      assert Shifted(EmptyTimeline, d) == EmptyTimeline;
    } else {
      var init := ops[..|ops| - 1];
      WalkShift(init, c, d);
      WalkPaired(init, c);
      var op := ops[|ops| - 1];
      var (t, e) := Walk(init, c);
      match ColumnMapping(op.name)
      case None =>
      case Some(s) =>
        ColumnMappingInverse(op.name, s);
        PlaceShift(t, s, e, e + op.duration, d);
    }
  }

  lemma PlaceShift(t: Timeline, s: Slot, a: real, b: real, d: real)
    requires Mapped(s)
    ensures Shifted(Place(t, s, a, b), d) == Place(Shifted(t, d), s, a + d, b + d)
  {
    var p := Place(t, s, a, b);
    var l, r := Shifted(p, d), Place(Shifted(t, d), s, a + d, b + d);
    forall x
      ensures (x in l.starts <==> x in r.starts) && (x in l.starts ==> l.starts[x] == r.starts[x])
      ensures (x in l.ends <==> x in r.ends) && (x in l.ends ==> l.ends[x] == r.ends[x])
    {
      if x != s {
        assert Shiftable(p, x) == Shiftable(t, x);
      }
    }
    assert l.starts == r.starts;
    assert l.ends == r.ends;
  }

  /**
   * Loads are scheduled back to back: load k's row is load 1's row moved by (k - 1)
   * times the mapped duration, and load k ends k mapped durations after the start.
   */
  lemma LoadsSequential(ops: seq<Operation>, start: real, k: int)
    ensures LoadStart(ops, start, 1) == start
    ensures LoadTimeline(ops, start, k) == Shifted(LoadTimeline(ops, start, 1), LoadOffset(ops, k))
    ensures Walk(ops, LoadStart(ops, start, k)).1 == LoadStart(ops, start, k + 1)
  {
    var d := LoadOffset(ops, k);
    assert LoadStart(ops, start, 1) == start;
    assert LoadTimeline(ops, start, 1) == Walk(ops, start).0;
    assert LoadTimeline(ops, start, k) == Walk(ops, start + d).0;
    WalkShift(ops, start, d);
    WalkEnd(ops, start + d);
    LoadArithmetic(k, MappedDuration(ops));
  }

  lemma LoadArithmetic(k: int, m: real)
    ensures (k - 1) as real * m + m == k as real * m
  {
    var kr := k as real;
    assert (k - 1) as real == kr - 1.0;
    assert (kr - 1.0) * m == kr * m - m;
  }

  /** The operations of a route that have a slot, in order. */
  function MappedOnly(ops: seq<Operation>): (r: seq<Operation>)
    ensures forall i :: 0 <= i < |r| ==> ColumnMapping(r[i].name).Some?
  {
    if |ops| == 0 then []
    else MappedOnly(ops[..|ops| - 1]) + (if ColumnMapping(ops[|ops| - 1].name).Some? then [ops[|ops| - 1]] else [])
  }

  /** Operations without a slot neither write anything nor take time: dropping them changes no row. */
  lemma {:induction false} UnmappedTakeNoTime(ops: seq<Operation>, c: real)
    ensures Walk(MappedOnly(ops), c) == Walk(ops, c)
  {
    if |ops| > 0 {
      var init := ops[..|ops| - 1];
      UnmappedTakeNoTime(init, c);
      var op := ops[|ops| - 1];
      var m := MappedOnly(ops);
      if ColumnMapping(op.name).Some? {
        assert m == MappedOnly(init) + [op];
        assert m[..|m| - 1] == MappedOnly(init);
        assert m[|m| - 1] == op;
      } else {
        assert m == MappedOnly(init) + [];
        assert m == MappedOnly(init);
      }
    }
  }

  /** Dropping the operations without a slot leaves the mapped duration, and so every load's length, unchanged. */
  lemma {:induction false} UnmappedAddNoDuration(ops: seq<Operation>)
    ensures MappedDuration(MappedOnly(ops)) == MappedDuration(ops)
  {
    if |ops| > 0 {
      var init := ops[..|ops| - 1];
      UnmappedAddNoDuration(init);
      var op := ops[|ops| - 1];
      var m := MappedOnly(ops);
      if ColumnMapping(op.name).Some? {
        assert m == MappedOnly(init) + [op];
        assert m[..|m| - 1] == MappedOnly(init);
      } else {
        assert m == MappedOnly(init) + [];
        assert m == MappedOnly(init);
      }
    }
  }

  // ---------------------------------------------------------------------------
  // The adjuster
  // ---------------------------------------------------------------------------

  function Lookup(m: map<Slot, real>, s: Slot): Option<real>
  {
    if s in m then Some(m[s]) else None
  }

  /**
   * Where slot `s` of an adjusted row takes its value from: None when the slot is
   * cleared, else the slot of the old row whose contents it receives.
   */
  function AdjustedFrom(route: string, tank: string, s: Slot): Option<Slot>
  {
    var tankSlot := TankSlot(tank);
    if tankSlot.Some? && s == Anodising1A then None
    else if tankSlot.Some? && s == tankSlot.value then Some(Anodising1A)
    else if route == EvenRinseRoute && s in {WaterRinse1, WaterRinse3, WaterRinse5, ColdSealA} then None
    else if route == EvenRinseRoute && s == WaterRinse2 then Some(WaterRinse1)
    else if route == EvenRinseRoute && s == WaterRinse4 then Some(WaterRinse3)
    else if route == EvenRinseRoute && s == WaterRinse6 then Some(WaterRinse5)
    else if route == EvenRinseRoute && s == ColdSealB then Some(ColdSealA)
    else Some(s)
  }

  function Pull(m: map<Slot, real>, from: Option<Slot>): Option<real>
  {
    match from
    case None => None
    case Some(f) => Lookup(m, f)
  }

  lemma MoveEntryLookup(m: map<Slot, real>, from: Slot, to: Slot, x: Slot)
    requires from != to
    ensures Lookup(MoveEntry(m, from, to), x) == if x == from then None else if x == to then Lookup(m, from) else Lookup(m, x)
  {
  }

  lemma MoveLookup(t: Timeline, from: Slot, to: Slot, x: Slot)
    requires from != to
    ensures Lookup(Move(t, from, to).starts, x) == if x == from then None else if x == to then Lookup(t.starts, from) else Lookup(t.starts, x)
    ensures Lookup(Move(t, from, to).ends, x) == if x == from then None else if x == to then Lookup(t.ends, from) else Lookup(t.ends, x)
  {
    MoveEntryLookup(t.starts, from, to, x);
    MoveEntryLookup(t.ends, from, to, x);
  }

  /** Where slot `s` of an even-rinsed row takes its value from (None: cleared). */
  function EvenRinsedFrom(s: Slot): Option<Slot>
  {
    if s in {WaterRinse1, WaterRinse3, WaterRinse5, ColdSealA} then None
    else if s == WaterRinse2 then Some(WaterRinse1)
    else if s == WaterRinse4 then Some(WaterRinse3)
    else if s == WaterRinse6 then Some(WaterRinse5)
    else if s == ColdSealB then Some(ColdSealA)
    else Some(s)
  }

  lemma EvenRinsedEntries(t: Timeline, s: Slot)
    ensures Lookup(EvenRinsed(t).starts, s) == Pull(t.starts, EvenRinsedFrom(s))
    ensures Lookup(EvenRinsed(t).ends, s) == Pull(t.ends, EvenRinsedFrom(s))
  {
    EvenRinsedEntry(t.starts, s);
    EvenRinsedEntry(t.ends, s);
  }

  /** EvenRinsedEntries for one of the two maps of a row. */
  lemma EvenRinsedEntry(m: map<Slot, real>, s: Slot)
    ensures Lookup(MoveEntry(MoveEntry(MoveEntry(MoveEntry(m, WaterRinse1, WaterRinse2), WaterRinse3, WaterRinse4),
      WaterRinse5, WaterRinse6), ColdSealA, ColdSealB), s) == Pull(m, EvenRinsedFrom(s))
  {
    var m1 := MoveEntry(m, WaterRinse1, WaterRinse2);
    var m2 := MoveEntry(m1, WaterRinse3, WaterRinse4);
    var m3 := MoveEntry(m2, WaterRinse5, WaterRinse6);
    MoveEntryLookup(m, WaterRinse1, WaterRinse2, s);
    MoveEntryLookup(m, WaterRinse1, WaterRinse2, WaterRinse3);
    MoveEntryLookup(m, WaterRinse1, WaterRinse2, WaterRinse5);
    MoveEntryLookup(m, WaterRinse1, WaterRinse2, ColdSealA);
    MoveEntryLookup(m1, WaterRinse3, WaterRinse4, s);
    MoveEntryLookup(m1, WaterRinse3, WaterRinse4, WaterRinse5);
    MoveEntryLookup(m1, WaterRinse3, WaterRinse4, ColdSealA);
    MoveEntryLookup(m2, WaterRinse5, WaterRinse6, s);
    MoveEntryLookup(m2, WaterRinse5, WaterRinse6, ColdSealA);
    MoveEntryLookup(m3, ColdSealA, ColdSealB, s);
  }

  /** Where slot `s` of the row after the rinse/seal step takes its value from. */
  function RinsedFrom(route: string, s: Slot): Option<Slot>
  {
    if route == EvenRinseRoute then EvenRinsedFrom(s) else Some(s)
  }

  lemma RinsedEntries(t: Timeline, route: string, s: Slot)
    ensures Lookup(Rinsed(t, route).starts, s) == Pull(t.starts, RinsedFrom(route, s))
    ensures Lookup(Rinsed(t, route).ends, s) == Pull(t.ends, RinsedFrom(route, s))
  {
    if route == EvenRinseRoute {
      EvenRinsedEntries(t, s);
    }
  }

  /** AdjustedFrom is the rinse step followed by the tank step. */
  lemma AdjustedFromSteps(route: string, tank: string, s: Slot)
    ensures AdjustedFrom(route, tank, s) ==
      match TankSlot(tank)
      case None => RinsedFrom(route, s)
      case Some(target) =>
        if s == Anodising1A then None
        else if s == target then RinsedFrom(route, Anodising1A)
        else RinsedFrom(route, s)
  {
  }

  /**
   * Each slot of the adjusted row holds what AdjustedFrom names: the even-rinse route
   * moves rinses 1, 3, 5 and Cold Seal A into 2, 4, 6 and Cold Seal B (empty or not)
   * and clears them; a tank among Anodising 1B, 2A and 2B takes Anodising 1A's
   * contents and clears 1A; every other slot keeps its value.
   */
  lemma AdjustedEntries(t: Timeline, route: string, tank: string, s: Slot)
    ensures Lookup(Adjusted(t, route, tank).starts, s) == Pull(t.starts, AdjustedFrom(route, tank, s))
    ensures Lookup(Adjusted(t, route, tank).ends, s) == Pull(t.ends, AdjustedFrom(route, tank, s))
  {
    AdjustedFromSteps(route, tank, s);
    RinsedEntries(t, route, s);
    match TankSlot(tank)
    case None =>
      AdjustedSteps(t, route, tank);
    case Some(target) =>
      AdjustedSteps(t, route, tank);
      MoveLookup(Rinsed(t, route), Anodising1A, target, s);
      RinsedEntries(t, route, Anodising1A);
  }

  /** Another rinse/seal route with a tank the adjuster does not list leaves the row as it was. */
  lemma AdjustedUnchanged(t: Timeline, route: string, tank: string)
    requires route != EvenRinseRoute && TankSlot(tank).None?
    ensures Adjusted(t, route, tank) == t
  {
  }

  lemma AdjustedSteps(t: Timeline, route: string, tank: string)
    ensures TankSlot(tank).None? ==> Adjusted(t, route, tank) == Rinsed(t, route)
    ensures TankSlot(tank).Some? ==> Adjusted(t, route, tank) == Move(Rinsed(t, route), Anodising1A, TankSlot(tank).value)
  {
  }

  // ---------------------------------------------------------------------------
  // The shifter
  // ---------------------------------------------------------------------------

  /** Shifting by a and then by b is shifting by a + b. */
  lemma ShiftCompose(t: Timeline, a: real, b: real)
    ensures Shifted(Shifted(t, a), b) == Shifted(t, a + b)
  {
    var l, r := Shifted(Shifted(t, a), b), Shifted(t, a + b);
    assert forall s :: Shiftable(Shifted(t, a), s) == Shiftable(t, s);
    assert l.starts == r.starts;
    assert l.ends == r.ends;
  }

  /** A zero shift changes nothing, and a shift can be undone by the opposite shift. */
  lemma ShiftInverse(t: Timeline, a: real)
    ensures Shifted(t, 0.0) == t
    ensures Shifted(Shifted(t, a), -a) == t
  {
    var z := Shifted(t, 0.0);
    assert z.starts == t.starts;
    assert z.ends == t.ends;
    ShiftCompose(t, a, -a);
  }

  /** The shift only translates: which slots are set does not change, and each interval keeps its length. */
  lemma ShiftKeepsLengths(t: Timeline, d: real, s: Slot)
    ensures Shifted(t, d).starts.Keys == t.starts.Keys && Shifted(t, d).ends.Keys == t.ends.Keys
    ensures Shiftable(t, s) ==> Shifted(t, d).ends[s] - Shifted(t, d).starts[s] == t.ends[s] - t.starts[s]
    ensures !Shiftable(t, s) ==> Lookup(Shifted(t, d).starts, s) == Lookup(t.starts, s) && Lookup(Shifted(t, d).ends, s) == Lookup(t.ends, s)
  {
  }

  /** COLUMN_MAPPING lists each slot once, so the shift loop visits each slot once. */
  lemma MappedSlotsDistinct()
    ensures forall i, j :: 0 <= i < j < |MappedSlots| ==> MappedSlots[i] != MappedSlots[j]
  {
    forall i, j | 0 <= i < j < |MappedSlots|
      ensures MappedSlots[i] != MappedSlots[j]
    {
      MappedSlotPosition(i);
      MappedSlotPosition(j);
    }
  }

  /** The position of a slot in MappedSlots (-1 for the three slots it leaves out). */
  function Position(s: Slot): int
  {
    match s
    case Packing => 0
    case Unjigging => 1
    case Drying => 2
    case HotSeal => 3
    case DyeOffline => 4
    case Unloading => 5
    case BlackDye => 6
    case GoldDye => 7
    case BoilingWaterSeal => 8
    case WaterRinse8 => 9
    case ColdSealB => 10
    case ColdSealA => 11
    case WaterRinse6 => 12
    case WaterRinse5 => 13
    case Anodising2B => 14
    case Anodising2A => 15
    case Anodising1B => 16
    case Anodising1A => 17
    case Desmut => 18
    case Etch => 19
    case WaterRinse4 => 20
    case WaterRinse3 => 21
    case WaterRinse2 => 22
    case WaterRinse1 => 23
    case Degrease => 24
    case Loading => 25
    case Jigging => 26
    case Brightening => 27
    case Blasting => 28
    case Polishing => 29
    case _ => -1
  }

  lemma PositionOfMapped(s: Slot)
    requires Mapped(s)
    ensures 0 <= Position(s) < |MappedSlots| && MappedSlots[Position(s)] == s
  {
    var p := Position(s);
    if p < 10 {
    } else if p < 20 {
    } else {
    }
  }

  lemma MappedSlotPosition(i: int)
    requires 0 <= i < |MappedSlots|
    ensures Position(MappedSlots[i]) == i
  {
    if i < 10 {
    } else if i < 20 {
    } else {
    }
  }

  /**
   * The shift loop over distinct slots: the set columns stay the same, and a slot
   * moves by `delta` exactly when the loop visits it and both its times are set.
   */
  lemma {:induction false} ShiftAllEntries(t: Timeline, delta: real, slots: seq<Slot>, s: Slot)
    requires forall i, j :: 0 <= i < j < |slots| ==> slots[i] != slots[j]
    ensures (s in ShiftAll(t, delta, slots).starts <==> s in t.starts) && (s in ShiftAll(t, delta, slots).ends <==> s in t.ends)
    ensures s in t.starts ==>
      ShiftAll(t, delta, slots).starts[s] == (if s in slots && s in t.ends then t.starts[s] + delta else t.starts[s])
    ensures s in t.ends ==>
      ShiftAll(t, delta, slots).ends[s] == (if s in slots && s in t.starts then t.ends[s] + delta else t.ends[s])
  {
    if |slots| > 0 {
      var init, last := slots[..|slots| - 1], slots[|slots| - 1];
      assert forall i, j :: 0 <= i < j < |init| ==> init[i] != init[j];
      ShiftAllEntries(t, delta, init, s);
      ShiftAllEntries(t, delta, init, last);
      assert last !in init;
      assert s in slots <==> s in init || s == last;
    }
  }

  /** Running the shift loop over COLUMN_MAPPING is the translation Shifted. */
  lemma ShiftAllIsShifted(t: Timeline, delta: real)
    ensures ShiftAll(t, delta, MappedSlots) == Shifted(t, delta)
  {
    var l, r := ShiftAll(t, delta, MappedSlots), Shifted(t, delta);
    MappedSlotsDistinct();
    forall s
      ensures (s in l.starts <==> s in r.starts) && (s in l.starts ==> l.starts[s] == r.starts[s])
      ensures (s in l.ends <==> s in r.ends) && (s in l.ends ==> l.ends[s] == r.ends[s])
    {
      ShiftAllEntries(t, delta, MappedSlots, s);
      MappedSlotsComplete(s);
    }
    assert l.starts == r.starts;
    assert l.ends == r.ends;
  }

  /**
   * The shift loop as written never completes: the first field's first column name,
   * "packing_start", does not unpack into two names. So a non-zero shift always ends
   * in an error (and a rolled-back row), while the corrected Shift succeeds.
   */
  lemma ShiftAsWrittenFails(t: Timeline, minutes: int)
    ensures ShiftAsWritten(t, minutes).Failure?
    ensures minutes != 0 ==> ShiftAsWritten(t, minutes) == Failure(UnpackError) && Shift(t, minutes).Success?
  {
    if minutes != 0 {
      assert MappedSlots[0] == Packing;
      assert |Columns(Packing).0| == 13;
    }
  }
}
