# Anodising route and load-scheduling engine

This is a Dafny model of the planning core of an anodising shop's order system. The core takes an
order line (a part, its jig and a quantity) and does the following:

- It splits the quantity into jigs and loads. The jig capacity comes from the part's custom figures,
  else from the jig, else from defaults.
- It compiles the part's selection flags into the ordered route of process operations. Each
  operation carries its duration and its per-load sign-off labels. A list of load-independent
  operations (polishing, blasting) is compiled beside it.
- It schedules the route once per load into the start/end columns of a `GanttJob` row. Loads run
  back to back.
- It relabels slots for the chosen rinse/seal route and anodising tank.
- It shifts a row's timestamps by a number of minutes.
- It builds a new part from the order form: validation, the anodising choice, the derived selection
  flags and the polishing steps.

Modules:

- `Wrappers`: `Option` and `Result`.
- `Text`: the string operations the source relies on. These are `.lower()`, `.capitalize()`,
  `.strip()`, `in` on strings and integer rendering.
- `LoadPlanning`: `determine_jig_values` and the load arithmetic of `generate_component_jobs`.
- `Routes` and `RouteProperties`: the route compiler as values, and what a compiled route looks like.
- `ComponentJobs`: the route compiler as the source writes it, appending to a list. These methods are
  proved equal to the value-level route, and `generate_component_jobs` is modelled over all order lines.
- `Timelines` and `TimelineProperties`:
  - `COLUMN_MAPPING` and the slots of a row;
  - name normalisation;
  - the per-load walk of the scheduler;
  - the adjuster and the shift, as functions on a row's timestamps;
  - their properties.
- `GanttJobs`: the `GanttJob` row as a class whose timestamp maps are overwritten in place. It holds
  `create_gantt_job`, `adjust_gantt_job_timestamps` and `shift_gantt_job` as methods proved against
  `Timelines`.
- `PartForm`: `process_new_part`.

The model follows the code as written, including these behaviours of it:

- `jigging_duration_per_load` is `ceil(mpj * required_jigs / loads_required)`. That is 20 minutes
  for 47 units on a 5/10/2 jig, not 2 (`LoadPlanning.ExampleSingleLoad`).
- A part without anodising is not short-circuited. Drying, Unjigging and Packing follow Jigging.
  The dye/seal block, Unloading and a second Drying, Unjigging and Packing still follow.
- The etch block's first rinse is named "Water Rinse (2 or 1)". Normalisation does not rename it
  and `COLUMN_MAPPING` does not list it, so the scheduler gives it no slot and no time.
- "Unloading" precedes the closing Drying in every branch, in-line dyeing included.
- A dye named "unloading" (capitalised to "Unloading") or a sealing named "Unloading" puts a
  second operation of that name into the route whenever its branch uses that name.
- Operations without a `COLUMN_MAPPING` entry do not move the scheduling cursor. A slot named twice
  in a route keeps the interval of its last occurrence.
- Dye names are capitalised before categorisation. An unknown dye name is "off-line".

Times are exact `real` minutes measured from an arbitrary origin. Integer ceilings follow Python's
`math.ceil` of a true division.

## Model

| member | source | states |
|---|---|---|
| Text.Lower | models.py:373 | `.lower()`: same length, every character mapped to lower case, and no upper-case character left |
| Text.CapitalizeShape | models.py:535 | `.capitalize()`: same length, first character upper-cased, the rest lower-cased |
| Text.Strip | azureapp.py:494-496 | `.strip()` over Python's whitespace set (ASCII and Unicode spaces): never longer; neither end of the result is whitespace; the result is empty exactly when the input is all whitespace |
| Text.StripUnicodeSpaces | azureapp.py:494-496 | a lone no-break space strips to the empty string (so such a part number counts as missing), and NEL and the ideographic space are stripped from both ends of a word |
| Text.ContainsOccurrence | models.py:557 | the substring test `sub in s` holds exactly when `sub` occurs at some index of `s` |
| Text.NatToString | models.py:380 | renders a load number as a non-empty string of decimal digits |
| Text.NatToStringValue | models.py:380 | the rendered digits read back as the same number (the rendering is injective) |
| Text.IntToString | models.py:481 | renders the quantity in the operator notes; a leading '-' exactly for negative numbers |
| LoadPlanning.ResolveCapacity | models.py:409-420 | each of UPJ, JPL and MPJ is the part's custom value when truthy (present and non-zero), else the jig's field, else 5, 10 or 2 |
| LoadPlanning.ResolveFieldsIndependent | models.py:411-413 | each resolved figure depends only on its own custom field: changing the other two custom fields leaves it unchanged |
| LoadPlanning.ResolvePositive | models.py:409-420 | non-negative custom figures and a jig with positive capacities resolve to positive UPJ, JPL and MPJ |
| LoadPlanning.CeilDiv | models.py:446-448 | `math.ceil(a / b)` for integers: for a positive divisor, the least r with a <= r * b |
| LoadPlanning.Decompose | models.py:444-463 | a successful plan keeps the capacity and quantity and has non-zero loads; a zero UPJ or JPL is a division error |
| LoadPlanning.DecomposeSucceeds | models.py:444-463 | a positive quantity with positive UPJ and JPL always decomposes, with at least one jig and one load |
| LoadPlanning.DecomposeZeroQuantityFails | models.py:446-461 | a zero quantity gives zero loads, and the jigging division then raises |
| LoadPlanning.DecomposeCeilingBounds | models.py:446-450 | `upj*(required_jigs-1) < q <= upj*required_jigs`, `jpl*(loads-1) < required_jigs <= jpl*loads`, and units per load is `upj*jpl` |
| LoadPlanning.FinalLoadBounds | models.py:450-458 | both branches give `q - units_per_load*(loads-1)`; the final load holds between 1 and units_per_load units; the loads hold q with less than one load to spare |
| LoadPlanning.JiggingCoversAllJigs | models.py:461-462 | the total jigging time is at least `mpj*required_jigs` and less than that plus one minute per load |
| LoadPlanning.PackingBounds | models.py:461-463 | packing is the ceiling of `mpj/3*required_jigs/loads`, and unjigging is the ceiling of `2.5*required_jigs/loads`, as two-sided integer bounds |
| LoadPlanning.ExampleSingleLoad | models.py:444-461 | 47 units on a 5/10/2 jig: 10 jigs, 1 load of 50, all 47 in it, 20 minutes of jigging |
| LoadPlanning.ExampleThreeLoads | models.py:444-458 | 123 units on a 5/10/2 jig: 25 jigs, 3 loads of 50, the last holding 23 |
| Routes.LoadLabels | models.py:380 | exactly max(n, 0) labels, the i-th being "Load i+1" |
| Routes.AddOperationRecord | models.py:370-382 | an added operation keeps its name, duration and note, is described by its name with every letter lower-cased, and is labelled "Load 1".."Load n" |
| Routes.CategorizeDyeTable | models.py:202-218 | the category agrees with `DYE_CATEGORIES.get(name, "off-line")` for every name |
| Routes.CategorizeDyeCases | models.py:202-218 | "in-line" exactly for Gold and Black; "none" exactly for "Default (un-dyed)" and "No"; "off-line" for every other name, unknown names included |
| Routes.SealDurationCases | models.py:557-570 | a sealing step lasts 30 minutes exactly when its name contains "30 min" or "Boiling", and 15 otherwise |
| RouteProperties.FinishNames | models.py:578-580 | the finish block is Drying (15), Unjigging and Packing with the plan's unjigging and packing times |
| RouteProperties.RouteSplit | models.py:494-580 | the route opens with Jigging (and Strip Etch when selected) and ends with the closing block |
| RouteProperties.ClosingEndsWithFinish | models.py:534-580 | the closing block (dye/seal, Unloading, finish) has at least four entries and ends with the finish block |
| RouteProperties.RouteFrame | models.py:495-580 | every route starts with Jigging for the per-load jigging time and ends with Drying (15), Unjigging and Packing |
| RouteProperties.ClosingForLoads | models.py:534-580 | every operation of the closing block is labelled for the plan's number of loads |
| RouteProperties.AnodicForLoads | models.py:502-526 | every operation of the anodic block is labelled for the plan's number of loads |
| RouteProperties.RouteInitials | models.py:380-580 | every operation of the route carries the labels "Load 1".."Load n", n being loads_required |
| RouteProperties.LoadLabelsDistinct | models.py:380 | the load labels are pairwise different |
| RouteProperties.DyeSealUnloading | models.py:538-571 | when neither the capitalised dye name nor the sealing is itself "Unloading", the dye/seal block reports having unloaded exactly when it opens with its one Unloading; otherwise it contains none |
| RouteProperties.OpeningNoUnloading | models.py:495-532 | nothing before the dye/seal block is named Unloading |
| RouteProperties.UnloadingExactlyOnce | models.py:538-580 | when neither the capitalised dye name nor the sealing is itself "Unloading", whichever branch is taken the route has exactly one Unloading, and it precedes the closing Drying, Unjigging and Packing |
| RouteProperties.AnodicBlockPlacement | models.py:494-526 | in an anodised route the anodic block sits right after Jigging (and Strip Etch) |
| RouteProperties.AnodicBlockShape | models.py:502-526 | the anodic block is Loading (1), Degrease (10) and Water Rinse (1 or 2) (1); then the optional double-and-etch and etch blocks with their names and durations; then Anodising for the part's duration (0 when unset) with the voltage note, and Water Rinse (5 or 6) (1) |
| RouteProperties.AnodisedRoute | models.py:494-526 | the anodic block's names and durations are found at their route positions after Jigging, with Strip Etch for its value when selected |
| RouteProperties.AnodisedRouteOpening | models.py:497-506 | the Strip Etch entry and the Loading, Degrease, first-rinse opening sit at their route positions |
| RouteProperties.AnodisedRouteEtching | models.py:509-520 | the double-and-etch and etch blocks sit at their route positions when selected |
| RouteProperties.AnodisedRouteAnodising | models.py:522-526 | Anodising with its duration and voltage note, and its rinse, sit at their route positions |
| RouteProperties.NotAnodisedRoute | models.py:528-532 | without anodising, Drying (15), Unjigging and Packing directly follow Jigging (and Strip Etch) |
| RouteProperties.OffLineDyedTail | models.py:542-580 | off-line dyed parts end Unloading (1), the dye (20), Off-line rinse (1), Hot Seal (30), Off-line rinse (1), then the finish |
| RouteProperties.InLineDyedTail | models.py:553-580 | in-line dyed parts end with the dye (20), Water Rinse (7), their sealing step for its seal duration, Water Rinse (8), Unloading (1), then the finish |
| RouteProperties.InLineSealStep | models.py:557 | the in-line sealing step, sixth from the end of the route, lasts 30 minutes exactly when the seal name contains "30 min" or "Boiling" |
| RouteProperties.UndyedHotSealTail | models.py:561-580 | undyed "Hot Seal" parts end Unloading (1), Hot Seal (30), Off-line rinse (1), then the finish |
| RouteProperties.UndyedSealTail | models.py:568-575 | other undyed parts end with their sealing step (name as stored), Water Rinse (8), Unloading, then the finish |
| RouteProperties.NoDyeCategoryTail | models.py:534-575 | a dye selected under a "none" name takes no dye branch: only Unloading (1) precedes the finish |
| RouteProperties.OffLineClosing | models.py:542-580 | the off-line dyed closing block is exactly Unloading, the dye, Off-line rinse, Hot Seal, Off-line rinse and the finish, with durations 1, 20, 1, 30, 1 |
| RouteProperties.InLineClosing | models.py:553-580 | the in-line dyed closing block is exactly the dye, Water Rinse (7), the seal, Water Rinse (8), Unloading and the finish, the seal lasting its seal duration |
| RouteProperties.UndyedHotSealClosing | models.py:561-580 | the undyed "Hot Seal" closing block is exactly Unloading, Hot Seal (30), Off-line rinse and the finish |
| RouteProperties.UndyedSealClosing | models.py:568-580 | any other undyed closing block is exactly the seal, Water Rinse (8), Unloading and the finish |
| RouteProperties.NoDyeClosing | models.py:534-580 | a dye of category "none" gives the closing block Unloading (1) and the finish only |
| RouteProperties.TailNames | models.py:534-580 | the last names and durations of the route are those of the closing block |
| RouteProperties.LoadIndependentDurations | models.py:474-490 | one polishing entry per step lasting 4 x total jigging time when polishing is selected, then one blasting entry lasting 2 x that time when blasting is |
| ComponentJobs.BuildOperations | models.py:494-580 | appending operation by operation yields exactly the value-level route |
| ComponentJobs.AppendStrip | models.py:497-499 | appends Strip Etch with the part's value exactly when strip etch is selected |
| ComponentJobs.AppendAnodic | models.py:502-526 | the anodising branch appends exactly the anodic block |
| ComponentJobs.AppendOpening | models.py:504-506 | appends Loading, Degrease and the first rinse |
| ComponentJobs.AppendDoubleAndEtch | models.py:509-514 | appends the five double-and-etch steps exactly when that treatment is selected |
| ComponentJobs.AppendEtch | models.py:516-520 | appends the four etch steps, the first for the part's etch value, exactly when etch is selected |
| ComponentJobs.AppendAnodising | models.py:522-526 | appends Anodising for the part's duration (0 when unset) with the voltage note, and its rinse |
| ComponentJobs.AppendClosing | models.py:534-580 | appends the dye/seal branch, Unloading only when that branch did not unload, then the finish block: exactly the closing block |
| ComponentJobs.AppendFinish | models.py:530-532 | appends exactly the finish block |
| ComponentJobs.AppendDyeSeal | models.py:534-571 | appends exactly the dye/seal block of the dye category and reports whether it unloaded |
| ComponentJobs.BuildLoadIndependentOperations | models.py:466-490 | the append loop yields exactly the polishing entries in step order, then blasting |
| ComponentJobs.JobFor | models.py:427-598 | a generated job comes from a line with a part and a jig and carries the decomposition of its quantity under the resolved capacity |
| ComponentJobs.GenerateComponentJobs | models.py:423-605 | the loop over order lines yields the jobs of all lines in order, skipping lines without part or jig, or the first error |
| ComponentJobs.JobsCount | models.py:427-601 | on success there is one job per line that has both a part and a jig |
| ComponentJobs.JobsSucceed | models.py:427-580 | generation succeeds exactly when every line with a part and jig decomposes and has the sealing name its branch reads |
| ComponentJobs.JobContents | models.py:585-598 | a job stores its line's plan, route and load-independent list |
| Timelines.Normalised | azureapp.py:1416-1426 | renaming keeps the length and changes each operation only in its name, which becomes its normalised name |
| Timelines.MoveEntry | azureapp.py:1657-1687 | after `to = from; from = None`, from is null, to holds from's old value or is null, and nothing else changes |
| Timelines.Shift | azureapp.py:1529-1551 | a zero shift is refused exactly when the minutes are 0; otherwise the result is the row with every shiftable slot translated |
| TimelineProperties.ColumnMappingInverse | azureapp.py:119-170 | `COLUMN_MAPPING` is one-to-one: a name maps to a slot exactly when that slot's key is the name |
| TimelineProperties.SlotOfKey | azureapp.py:119-170 | every listed slot is reached from its own key |
| TimelineProperties.KeyOfSlot | azureapp.py:119-170 | a mapped name is the key of the slot it maps to |
| TimelineProperties.MappedSlotsComplete | azureapp.py:1543 | the slots the shift visits are exactly the listed slots |
| TimelineProperties.PositionOfMapped | azureapp.py:119-170 | every listed slot sits at its own position in the values of `COLUMN_MAPPING` |
| TimelineProperties.MappedSlotsDistinct | azureapp.py:119-170 | no slot is listed twice in the values of `COLUMN_MAPPING` |
| TimelineProperties.NormaliseChangesOnly | azureapp.py:1416-1426 | normalisation changes a name exactly when it is one of the six placeholders |
| TimelineProperties.NormaliseIdempotent | azureapp.py:1416-1426 | normalising twice is normalising once, per name and per route |
| TimelineProperties.NormalisedKeepsDurations | azureapp.py:1416-1426 | normalisation keeps length, durations, notes and load counts |
| TimelineProperties.WalkEnd | azureapp.py:1443-1454 | a load ends at its start plus the total duration of its mapped operations |
| TimelineProperties.WalkSlots | azureapp.py:1447-1452 | a slot gets a start exactly when it gets an end, exactly when some operation maps to it |
| TimelineProperties.WalkLastOccurrence | azureapp.py:1447-1452 | a slot named more than once holds the interval of its last occurrence: start = cursor before it, end = start + its duration |
| TimelineProperties.MappedDurationPrefix | azureapp.py:1443-1452 | with non-negative durations the cursor never goes back: each prefix takes between 0 and the whole load's time |
| TimelineProperties.WalkWithinLoad | azureapp.py:1443-1452 | with non-negative durations every filled slot has load start <= start <= end <= load end |
| TimelineProperties.WalkPaired | azureapp.py:1447-1452 | the scheduler fills only listed slots, and each with both a start and an end |
| TimelineProperties.WalkShift | azureapp.py:1443-1452 | starting a load d minutes later shifts every interval and the end by d |
| TimelineProperties.PlaceShift | azureapp.py:1450-1452 | shifting commutes with writing a listed slot |
| TimelineProperties.LoadsSequential | azureapp.py:1429-1454 | load 1 starts at the start time; load k is load 1 shifted by (k-1) x the mapped duration; load k ends where load k+1 starts |
| TimelineProperties.MappedOnly | azureapp.py:1447-1448 | the route filtered to operations that have a slot |
| TimelineProperties.UnmappedTakeNoTime | azureapp.py:1447-1452 | dropping unmapped operations changes neither the row nor the end time |
| TimelineProperties.UnmappedAddNoDuration | azureapp.py:1447-1452 | unmapped operations add nothing to a load's duration |
| TimelineProperties.MoveLookup | azureapp.py:1682-1687 | moving a slot clears the source, copies its start and end (null included) into the target and leaves every other slot |
| TimelineProperties.EvenRinsedEntries | azureapp.py:1657-1670 | on the even route, slots 2, 4, 6 and Cold Seal B hold the old contents of 1, 3, 5 and Cold Seal A (even when null); 1, 3, 5 and A are null; every other slot is unchanged |
| TimelineProperties.RinsedEntries | azureapp.py:1657-1670 | the rinse step of the adjuster per slot: the even route as above, any other route value changes nothing |
| TimelineProperties.AdjustedEntries | azureapp.py:1657-1687 | each slot of an adjusted row holds the old contents of the one slot it is taken from, or null, for every route and tank |
| TimelineProperties.AdjustedFromSteps | azureapp.py:1673-1687 | a listed tank takes Anodising 1A's source slot, 1A has none, and every other slot keeps the rinse step's source |
| TimelineProperties.AdjustedUnchanged | azureapp.py:1657-1687 | another rinse/seal route with an unlisted tank leaves the row unchanged |
| TimelineProperties.AdjustedSteps | azureapp.py:1657-1687 | the adjuster is the rinse step, then the tank move for a listed tank, and nothing else |
| TimelineProperties.ShiftCompose | azureapp.py:1546-1551 | shifting by a then by b is shifting by a + b |
| TimelineProperties.ShiftInverse | azureapp.py:1546-1551 | a zero shift changes nothing, and shifting back by -a undoes a shift by a |
| TimelineProperties.ShiftKeepsLengths | azureapp.py:1546-1551 | a shift keeps which columns are set and every interval's length, and leaves slots without both times as they were |
| TimelineProperties.ShiftAllEntries | azureapp.py:1543-1551 | the slot-by-slot loop moves each visited slot with both times set once, and nothing else |
| TimelineProperties.ShiftAllIsShifted | azureapp.py:1543-1551 | the loop over the values of `COLUMN_MAPPING` computes the whole-row shift |
| TimelineProperties.ShiftAsWrittenFails | azureapp.py:1543-1560 | the loop as written fails for every non-zero shift, whereas the corrected shift succeeds |
| GanttJobs.GanttJob.constructor | azureapp.py:1435-1440 | a new row for a component job and load number, with every timestamp null |
| GanttJobs.GanttJob.SetSlot | azureapp.py:1449-1452 | writes one slot's start and end and nothing else |
| GanttJobs.GanttJob.AssignOperations | azureapp.py:1443-1452 | the inner loop leaves the row as the value-level walk from the cursor and returns where the load ends |
| GanttJobs.GanttJob.MoveSlot | azureapp.py:1682-1687 | moves a slot's start and end into another slot and clears the source |
| GanttJobs.GanttJob.ShiftSlot | azureapp.py:1546-1551 | translates one slot when both its start and end are set |
| GanttJobs.GanttJob.Adjust | azureapp.py:1655-1687 | the row becomes its adjusted value for the route and tank |
| GanttJobs.GanttJob.Shift | azureapp.py:1529-1551 | a zero shift is refused and changes nothing; otherwise every shiftable slot moves by the minutes |
| GanttJobs.AdjustGanttJobs | azureapp.py:1646-1687 | every row of the component job is adjusted, each exactly once |
| GanttJobs.NormaliseOperations | azureapp.py:1416-1426 | the in-place renaming loop leaves the route normalised |
| GanttJobs.CreateGanttJobs | azureapp.py:1412-1459 | an empty route is refused, and only then. Otherwise the route is normalised and there is one fresh row per load, numbered from 1; load k's row is the adjusted walk starting (k-1) loads after the start time |
| PartForm.CollectPolishingSteps | azureapp.py:563-582 | the step loop collects exactly the value-level polishing steps 1 to 3 |
| PartForm.PolishingStepsShape | azureapp.py:567-582 | at most three steps, in increasing step order; each step holds its stripped fields; a step is present exactly when one of its fields is non-blank |
| PartForm.PolishingStepsNumbered | azureapp.py:567-582 | at most n steps; each is the stripped fields of a step number between 1 and n that was entered |
| PartForm.PolishingStepsIncreasing | azureapp.py:567-582 | the collected steps come in strictly increasing step order |
| PartForm.PolishingStepsEntered | azureapp.py:567-582 | a step number k between 1 and n with an entered field is collected |
| PartForm.ChooseAnodising | azureapp.py:509-540 | the if/elif chain yields the settings of the chosen branch, and nothing for an unknown choice |
| PartForm.ProcessNewPart | azureapp.py:378-657 | the handler's outcome is the value-level result of the form |
| PartForm.NewPartErrors | azureapp.py:494-657 | the handler fails for a blank part number, description or jig type, in that order, and for an unknown anodising choice, each exactly under its condition |
| PartForm.AnodisingFlags | azureapp.py:509-540 | anodising is selected exactly for "Anodising is required", and voltage with it; strip etch exactly for the strip choices, with 1.0 or 2.5; never both; duration and voltage are stored only when anodising and then lie in their allowed ranges |
| PartForm.FlagsFollowChoices | azureapp.py:542-590 | each selection flag is 1 exactly when its form choice says so; no polishing steps are stored when polishing is off; the saved row meets the table's CHECK constraints |
| PartForm.SavedPartCompiles | azureapp.py:509-590 | a saved part carries every value the route compiler reads for its selected treatments |

## Left out

- Flask routing, request parsing, JSON responses, status codes, sessions, templates and logging are
  not modelled. Neither are the Azure blob upload, customer and order lookups, their 404 and 400
  answers, or SQLAlchemy queries, commits and rollbacks. Part, jig, quantity and a component job's
  stored operations are inputs.
- Text-to-number conversion (`int(...)`, `float(...)`, `json.loads`) and its errors are not
  modelled. Form values and stored operations arrive already converted. An unparsable polishing
  JSON is not modelled; the model's part holds its polishing steps as values.
- `datetime`/`timedelta` arithmetic and floating point are not modelled. Instants are exact `real`
  minutes from an arbitrary origin, so float rounding of durations such as 0.25 is absent.
- Voltage and the "16V" note are structured values (`Info`). The text Python renders for a float
  is not modelled.
- Case mapping in `Text` covers ASCII letters only.
- Routes.DyeSealBlock: the undyed "Hot Seal" branch (models.py:564) passes the Unloading duration
  as the string "1". The model stores the number 1, the value the scheduler's `float()` reads
  (azureapp.py:1445), so the stored JSON text of that one operation differs. The Unloading duration
  in RouteProperties.UndyedHotSealTail and UndyedHotSealClosing is that number.
- Routes.Compilable: a part with strip etch or etch selected and a null value is not covered. The
  source compiles it into an operation with a null duration (models.py:499 and 517), which fails
  only when the scheduler converts it (azureapp.py:1445). The new-part handler never saves such a
  part (PartForm.SavedPartCompiles). ComponentJobs.BuildOperations, AppendStrip, AppendEtch,
  JobFor, GenerateComponentJobs, JobsCount, JobsSucceed and JobContents require the values set.
- `GanttJob.component_job_id` is declared unique in the table. Committing more than one row per
  component job therefore violates a database constraint; the model, like the scheduler's loop,
  creates one row per load.
- `GanttJobs.AdjustGanttJobs` adjusts the rows it is given. The source queries every row stored for
  the component job. `GanttJobs.CreateGanttJobs` passes the rows it created, so earlier rows of the
  same component job are not revisited.
- The adjuster swallows its own exceptions after a rollback. Nothing in the modelled adjuster can
  raise, so that path is absent.
- `fetch_jig_for_part`, order-line queries and `buzzbars_required` (a float stored but never used
  by the route) are not modelled.
- Retention (`delete_old_records`), the Gantt read view and its ISO-8601 rendering are not modelled.
- `process_existing_part` and the order form's other handlers are not modelled.

## Findings

| source | as written | input that shows it | evidently intended | confidence | as-written member | corrected member |
|---|---|---|---|---|---|---|
| azureapp.py:1543-1545 | `for start_col, end_col in field` iterates over the two column-name strings of a `COLUMN_MAPPING` value and unpacks each name into two targets. A name such as "packing_start" has more than two characters, so the unpacking raises and the handler rolls back. | any non-zero `shift_minutes` on any row | unpack the field itself (`start_col, end_col = field`) and move every slot whose start and end are both set | not executed | Timelines.ShiftAsWritten (lemma TimelineProperties.ShiftAsWrittenFails) | GanttJobs.GanttJob.Shift (value level: Timelines.Shift, with TimelineProperties.ShiftCompose and ShiftInverse) |
