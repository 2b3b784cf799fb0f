/** What the compiled route promises: its frame, its blocks, its single unloading and its sign-off labels. */
module RouteProperties {
  import opened Wrappers
  import opened Text
  import opened LoadPlanning
  import opened Routes

  function Names(ops: seq<Operation>): (r: seq<string>)
    ensures |r| == |ops| && forall i :: 0 <= i < |ops| ==> r[i] == ops[i].name
  {
    seq(|ops|, i requires 0 <= i < |ops| => ops[i].name)
  }

  function Durations(ops: seq<Operation>): (r: seq<real>)
    ensures |r| == |ops| && forall i :: 0 <= i < |ops| ==> r[i] == ops[i].duration
  {
    seq(|ops|, i requires 0 <= i < |ops| => ops[i].duration)
  }

  lemma NamesAppend(a: seq<Operation>, b: seq<Operation>)
    ensures Names(a + b) == Names(a) + Names(b)
    ensures Durations(a + b) == Durations(a) + Durations(b)
  {
  }

  lemma NamesSlice(s: seq<Operation>, i: int, j: int)
    requires 0 <= i <= j <= |s|
    ensures Names(s)[i..j] == Names(s[i..j]) && Durations(s)[i..j] == Durations(s[i..j])
  {
  }

  lemma FinishNames(plan: LoadPlan)
    ensures Names(FinishBlock(plan)) == ["Drying", "Unjigging", "Packing"]
    ensures Durations(FinishBlock(plan)) == [15.0, plan.unjiggingDuration as real, plan.packingDuration as real]
  {
  }

  /** Number of entries added by the optional strip, double-and-etch and etch blocks. */
  function StripCount(part: PartSpec): nat { if part.stripEtchSelectionStatus == 1 then 1 else 0 }
  function DoubleAndEtchCount(part: PartSpec): nat { if part.doubleAndEtchSelectionStatus == 1 then 5 else 0 }
  function EtchCount(part: PartSpec): nat { if part.etchSelectionStatus == 1 then 4 else 0 }

  /** The route split at the start of its closing block. */
  lemma RouteSplit(part: PartSpec, plan: LoadPlan)
    requires Compilable(part)
    ensures var r := Route(part, plan); var c := ClosingBlock(part, plan);
      && |r| >= |c| + 1 + StripCount(part)
      && r[|r| - |c|..] == c
      && r[0] == JiggingOp(plan)
      && (part.stripEtchSelectionStatus == 1 ==> r[1] == StripBlock(part, plan)[0])
  {
  }

  lemma ClosingEndsWithFinish(part: PartSpec, plan: LoadPlan)
    requires Compilable(part)
    ensures var c := ClosingBlock(part, plan);
      |c| >= 4 && c[|c| - 3..] == FinishBlock(plan)
  {
  }

  /** Every route opens with Jigging for the per-load jigging time and closes with Drying (15), Unjigging and Packing. */
  lemma RouteFrame(part: PartSpec, plan: LoadPlan)
    requires Compilable(part)
    ensures var r := Route(part, plan);
      && |r| >= 5
      && r[0].name == "Jigging" && r[0].duration == plan.jiggingDurationPerLoad as real
      && Names(r)[|r| - 3..] == ["Drying", "Unjigging", "Packing"]
      && Durations(r)[|r| - 3..] == [15.0, plan.unjiggingDuration as real, plan.packingDuration as real]
  {
    RouteSplit(part, plan);
    ClosingEndsWithFinish(part, plan);
    FrameOfSplit(Route(part, plan), ClosingBlock(part, plan), plan);
  }

  /** A sequence that opens with Jigging and ends with a closing block that ends with the finish. */
  lemma FrameOfSplit(r: seq<Operation>, c: seq<Operation>, plan: LoadPlan)
    requires |r| >= |c| + 1 && r[|r| - |c|..] == c && r[0] == JiggingOp(plan)
    requires |c| >= 4 && c[|c| - 3..] == FinishBlock(plan)
    ensures |r| >= 5
    ensures r[0].name == "Jigging" && r[0].duration == plan.jiggingDurationPerLoad as real
    ensures Names(r)[|r| - 3..] == ["Drying", "Unjigging", "Packing"]
    ensures Durations(r)[|r| - 3..] == [15.0, plan.unjiggingDuration as real, plan.packingDuration as real]
  {
    var f := FinishBlock(plan);
    SuffixTrans(r, c, f);
    SuffixShape(r, f, 3);
    FinishNames(plan);
  }

  /** A suffix of a suffix is a suffix. */
  lemma SuffixTrans(r: seq<Operation>, c: seq<Operation>, f: seq<Operation>)
    requires |c| <= |r| && r[|r| - |c|..] == c && |f| <= |c| && c[|c| - |f|..] == f
    ensures r[|r| - |f|..] == f
  {
    assert r[|r| - |f|..] == r[|r| - |c|..][|c| - |f|..];
  }

  /** Names and leading durations of a block followed by the finish block. */
  lemma HeadThenFinish(head: seq<Operation>, plan: LoadPlan)
    ensures Names(head + FinishBlock(plan)) == Names(head) + ["Drying", "Unjigging", "Packing"]
    ensures Durations(head + FinishBlock(plan))[..|head|] == Durations(head)
  {
    NamesAppend(head, FinishBlock(plan));
    FinishNames(plan);
  }

  /** The last operations of `r` are named `names`, and the first of them last `durations`. */
  predicate EndsWith(r: seq<Operation>, names: seq<string>, durations: seq<real>)
  {
    && |durations| <= |names| <= |r|
    && Names(r)[|r| - |names|..] == names
    && Durations(r)[|r| - |names|..|r| - |names| + |durations|] == durations
  }

  /** The k-th of the leading durations of an `EndsWith` tail, read off the sequence itself. */
  lemma DurationAt(r: seq<Operation>, names: seq<string>, durations: seq<real>, k: int)
    requires EndsWith(r, names, durations) && 0 <= k < |durations|
    ensures r[|r| - |names| + k].duration == durations[k]
  {
    assert Durations(r)[|r| - |names|..|r| - |names| + |durations|][k] == durations[k];
  }

  /** A closing block with the given names and leading durations puts them at the end of `r`. */
  lemma TailOfClosing(r: seq<Operation>, c: seq<Operation>, names: seq<string>, durations: seq<real>)
    requires |c| <= |r| && r[|r| - |c|..] == c
    requires Names(c) == names && |durations| <= |c| && Durations(c)[..|durations|] == durations
    ensures EndsWith(r, names, durations)
  {
    SuffixShape(r, c, |durations|);
  }

  /** The names and durations at the end of `r` are those of its suffix `c`. */
  lemma SuffixShape(r: seq<Operation>, c: seq<Operation>, k: int)
    requires |c| <= |r| && r[|r| - |c|..] == c && 0 <= k <= |c|
    ensures Names(r)[|r| - |c|..] == Names(c)
    ensures Durations(r)[|r| - |c|..] == Durations(c)
    ensures Durations(r)[|r| - |c|..|r| - |c| + k] == Durations(c)[..k]
  {
    NamesSlice(r, |r| - |c|, |r|);
    NamesSlice(r, |r| - |c|, |r| - |c| + k);
    assert r[|r| - |c|..|r| - |c| + k] == c[..k];
  }

  predicate ForLoads(ops: seq<Operation>, n: int)
  {
    forall i :: 0 <= i < |ops| ==> ops[i].loadsRequired == n
  }

  lemma ForLoadsAppend(a: seq<Operation>, b: seq<Operation>, n: int)
    requires ForLoads(a, n) && ForLoads(b, n)
    ensures ForLoads(a + b, n)
  {
  }

  lemma ClosingForLoads(part: PartSpec, plan: LoadPlan)
    requires Compilable(part)
    ensures ForLoads(ClosingBlock(part, plan), plan.loadsRequired)
  {
    var n := plan.loadsRequired;
    var ds := DyeSealBlock(part, plan);
    var unload: seq<Operation> := if ds.1 then [] else [Op("Unloading", 1.0, plan)];
    assert ForLoads(ds.0, n);
    ForLoadsAppend(ds.0, unload, n);
    ForLoadsAppend(ds.0 + unload, FinishBlock(plan), n);
  }

  lemma AnodicForLoads(part: PartSpec, plan: LoadPlan)
    requires Compilable(part) && part.anodisingSelectionStatus == 1
    ensures ForLoads(AnodicBlock(part, plan), plan.loadsRequired)
  {
    var n := plan.loadsRequired;
    var o, de, et, an := AnodicOpening(plan), DoubleAndEtchPart(part, plan), EtchPart(part, plan), AnodisingSteps(part, plan);
    ForLoadsAppend(o, de, n);
    ForLoadsAppend(o + de, et, n);
    ForLoadsAppend(o + de + et, an, n);
  }

  /** Every operation of the route carries the labels "Load 1" .. "Load n", n being the number of loads. */
  lemma RouteInitials(part: PartSpec, plan: LoadPlan)
    requires Compilable(part)
    ensures forall i :: 0 <= i < |Route(part, plan)| ==> Route(part, plan)[i].Initials() == LoadLabels(plan.loadsRequired)
  {
    ClosingForLoads(part, plan);
    if part.anodisingSelectionStatus == 1 {
      AnodicForLoads(part, plan);
    }
    assert ForLoads(Route(part, plan), plan.loadsRequired);
  }

  /** The load labels are pairwise different: each load is signed off under its own label. */
  lemma LoadLabelsDistinct(n: int, i: int, j: int)
    requires 0 <= i < j < n
    ensures LoadLabels(n)[i] != LoadLabels(n)[j]
  {
    var a, b := NatToString(i + 1), NatToString(j + 1);
    NatToStringValue(i + 1);
    NatToStringValue(j + 1);
    assert a != b;
    PrefixKeepsDifference("Load ", a, b);
  }

  lemma PrefixKeepsDifference(p: string, a: string, b: string)
    requires a != b
    ensures p + a != p + b
  {
    assert a == (p + a)[|p|..] && b == (p + b)[|p|..];
  }

  /** Names the part contributes to the route (its dye and sealing) are not "Unloading". */
  predicate NoUnloadingNames(part: PartSpec)
  {
    DyeName(part) != "Unloading" && part.sealing != Some("Unloading")
  }

  /** No operation of `ops` is named "Unloading". */
  predicate NoUnloading(ops: seq<Operation>)
  {
    forall j :: 0 <= j < |ops| ==> ops[j].name != "Unloading"
  }

  /** The dye/seal block opens with its one "Unloading" when it reports having unloaded, and has none otherwise. */
  lemma DyeSealUnloading(part: PartSpec, plan: LoadPlan)
    requires Compilable(part) && NoUnloadingNames(part)
    ensures var ds := DyeSealBlock(part, plan);
      && (ds.1 ==> |ds.0| > 0 && ds.0[0].name == "Unloading" && NoUnloading(ds.0[1..]))
      && (!ds.1 ==> NoUnloading(ds.0))
  {
  }

  lemma NoUnloadingAppend(a: seq<Operation>, b: seq<Operation>)
    requires NoUnloading(a) && NoUnloading(b)
    ensures NoUnloading(a + b)
  {
  }

  lemma AnodicNoUnloading(part: PartSpec, plan: LoadPlan)
    requires Compilable(part) && part.anodisingSelectionStatus == 1
    ensures NoUnloading(AnodicBlock(part, plan))
  {
    var o, de, et, an := AnodicOpening(plan), DoubleAndEtchPart(part, plan), EtchPart(part, plan), AnodisingSteps(part, plan);
    assert NoUnloading(o);
    assert NoUnloading(de);
    assert NoUnloading(et);
    assert NoUnloading(an);
    NoUnloadingAppend(o, de);
    NoUnloadingAppend(o + de, et);
    NoUnloadingAppend(o + de + et, an);
  }

  lemma OpeningNoUnloading(part: PartSpec, plan: LoadPlan)
    requires Compilable(part)
    ensures NoUnloading([JiggingOp(plan)] + StripBlock(part, plan)
      + (if part.anodisingSelectionStatus == 1 then AnodicBlock(part, plan) else FinishBlock(plan)))
  {
    var head := [JiggingOp(plan)] + StripBlock(part, plan);
    assert NoUnloading(head);
    if part.anodisingSelectionStatus == 1 {
      AnodicNoUnloading(part, plan);
      NoUnloadingAppend(head, AnodicBlock(part, plan));
    } else {
      assert NoUnloading(FinishBlock(plan));
      NoUnloadingAppend(head, FinishBlock(plan));
    }
  }

  /** The one operation of `ops` named "Unloading" is at index `u`. */
  predicate UnloadingOnlyAt(ops: seq<Operation>, u: int)
  {
    && 0 <= u < |ops| && ops[u].name == "Unloading"
    && forall j :: 0 <= j < |ops| && ops[j].name == "Unloading" ==> j == u
  }

  lemma UnloadingOnlyAtAppend(o: seq<Operation>, mid: seq<Operation>, f: seq<Operation>, u: int)
    requires NoUnloading(o) && UnloadingOnlyAt(mid, u) && NoUnloading(f)
    ensures UnloadingOnlyAt(o + mid + f, |o| + u)
  {
    var r := o + mid + f;
    assert r[|o| + u] == mid[u];
    forall j | 0 <= j < |r| && r[j].name == "Unloading" ensures j == |o| + u {
      if |o| <= j < |o| + |mid| {
        assert r[j] == mid[j - |o|];
      }
    }
  }

  /** The dye/seal block followed by the Unloading it did not do itself unloads exactly once. */
  lemma DyeSealUnloadsOnce(part: PartSpec, plan: LoadPlan)
    requires Compilable(part) && NoUnloadingNames(part)
    ensures var ds := DyeSealBlock(part, plan);
      UnloadingOnlyAt(ds.0 + (if ds.1 then [] else [Op("Unloading", 1.0, plan)]), if ds.1 then 0 else |ds.0|)
  {
    var ds := DyeSealBlock(part, plan);
    DyeSealUnloading(part, plan);
  }

  /**
   * "Unloading" occurs exactly once in the route, before the closing Drying, Unjigging
   * and Packing, whichever dye/seal branch is taken, provided the part's own dye and
   * sealing names are not "Unloading".
   */
  lemma UnloadingExactlyOnce(part: PartSpec, plan: LoadPlan)
    requires Compilable(part) && NoUnloadingNames(part)
    ensures var r := Route(part, plan);
      exists u :: 0 <= u < |r| - 3 && r[u].name == "Unloading"
        && forall j :: 0 <= j < |r| && r[j].name == "Unloading" ==> j == u
  {
    var o := [JiggingOp(plan)] + StripBlock(part, plan)
      + (if part.anodisingSelectionStatus == 1 then AnodicBlock(part, plan) else FinishBlock(plan));
    var ds := DyeSealBlock(part, plan);
    var mid := ds.0 + (if ds.1 then [] else [Op("Unloading", 1.0, plan)]);
    var f := FinishBlock(plan);
    var r := Route(part, plan);
    assert r == o + mid + f;
    OpeningNoUnloading(part, plan);
    DyeSealUnloadsOnce(part, plan);
    assert NoUnloading(f);
    var u := if ds.1 then 0 else |ds.0|;
    UnloadingOnlyAtAppend(o, mid, f, u);
    assert UnloadingOnlyAt(r, |o| + u);
  }

  /** In an anodised route the anodic block follows Jigging (and Strip Etch). */
  lemma AnodicBlockPlacement(part: PartSpec, plan: LoadPlan)
    requires Compilable(part) && part.anodisingSelectionStatus == 1
    ensures var r := Route(part, plan); var s := StripCount(part); var an := AnodicBlock(part, plan);
      && 1 + s + |an| < |r|
      && r[1 + s..1 + s + |an|] == an
      && (s == 1 ==> r[1].name == "Strip Etch" && r[1].duration == part.stripEtch.value)
  {
    RouteSplit(part, plan);
    var r := Route(part, plan);
    var head := [JiggingOp(plan)] + StripBlock(part, plan);
    assert r == head + AnodicBlock(part, plan) + ClosingBlock(part, plan);
  }

  lemma EmbeddedAt(r: seq<Operation>, p: int, b: seq<Operation>, k: int)
    requires 0 <= p && p + |b| <= |r| && r[p..p + |b|] == b && 0 <= k < |b|
    ensures r[p + k] == b[k]
  {
    assert r[p + k] == r[p..p + |b|][k];
  }

  /** Names and durations of a block are found unchanged where the block is embedded. */
  lemma EmbeddedBlock(r: seq<Operation>, p: int, b: seq<Operation>, lo: int, hi: int)
    requires 0 <= p && p + |b| <= |r| && r[p..p + |b|] == b && p <= lo <= hi <= p + |b|
    ensures Names(r)[lo..hi] == Names(b)[lo - p..hi - p]
    ensures Durations(r)[lo..hi] == Durations(b)[lo - p..hi - p]
  {
    forall m | 0 <= m < hi - lo ensures r[lo..hi][m] == b[lo - p..hi - p][m] {
      assert r[lo + m] == r[p..p + |b|][lo - p + m];
    }
    assert r[lo..hi] == b[lo - p..hi - p];
    NamesSlice(r, lo, hi);
    NamesSlice(b, lo - p, hi - p);
  }

  /**
   * With anodising selected, Jigging (and Strip Etch) are followed by Loading (1),
   * Degrease (10) and Water Rinse (1 or 2) (1), then the optional double-and-etch and etch
   * blocks, then Anodising for the part's duration (0 when unset) with the voltage note,
   * and Water Rinse (5 or 6).
   */
  lemma AnodisedRoute(part: PartSpec, plan: LoadPlan)
    requires Compilable(part) && part.anodisingSelectionStatus == 1
    ensures var r := Route(part, plan); var s := StripCount(part);
      var a := 4 + s + DoubleAndEtchCount(part) + EtchCount(part);
      && |r| > a + 1
      && (s == 1 ==> r[1].name == "Strip Etch" && r[1].duration == part.stripEtch.value)
      && Names(r)[1 + s..4 + s] == ["Loading", "Degrease", "Water Rinse (1 or 2)"]
      && Durations(r)[1 + s..4 + s] == [1.0, 10.0, 1.0]
      && (part.doubleAndEtchSelectionStatus == 1 ==>
            && Names(r)[4 + s..9 + s] == ["Caustic Etch", "Water Rinse (1 or 2)", "Flash Anodise", "Water Rinse (3 or 4)", "Caustic Etch"]
            && Durations(r)[4 + s..9 + s] == [0.25, 1.0, 5.0, 1.0, 3.0])
      && (part.etchSelectionStatus == 1 ==>
            var e := 4 + s + DoubleAndEtchCount(part);
            && Names(r)[e..e + 4] == ["Caustic Etch", "Water Rinse (2 or 1)", "Desmut", "Water Rinse (3 or 4)"]
            && Durations(r)[e..e + 4] == [part.etch.value, 1.0, 1.0, 1.0])
      && r[a].name == "Anodising" && r[a].duration == part.anodisingDuration.GetOr(0) as real
      && r[a].info == Some(VoltageNote(part))
      && r[a + 1].name == "Water Rinse (5 or 6)" && r[a + 1].duration == 1.0
  {
    AnodisedRouteOpening(part, plan);
    AnodisedRouteEtching(part, plan);
    AnodisedRouteAnodising(part, plan);
  }

  lemma AnodisedRouteOpening(part: PartSpec, plan: LoadPlan)
    requires Compilable(part) && part.anodisingSelectionStatus == 1
    ensures var r := Route(part, plan); var s := StripCount(part);
      && |r| > 4 + s
      && Names(r)[1 + s..4 + s] == ["Loading", "Degrease", "Water Rinse (1 or 2)"]
      && Durations(r)[1 + s..4 + s] == [1.0, 10.0, 1.0]
  {
    var s := StripCount(part);
    var r, an := Route(part, plan), AnodicBlock(part, plan);
    AnodicBlockPlacement(part, plan);
    AnodicBlockShape(part, plan);
    EmbeddedBlock(r, 1 + s, an, 1 + s, 4 + s);
    assert Names(r)[1 + s..4 + s] == Names(an)[..3];
    assert Durations(r)[1 + s..4 + s] == Durations(an)[..3];
  }

  lemma AnodisedRouteEtching(part: PartSpec, plan: LoadPlan)
    requires Compilable(part) && part.anodisingSelectionStatus == 1
    ensures var r := Route(part, plan); var s := StripCount(part);
      && |r| > 4 + s + DoubleAndEtchCount(part) + EtchCount(part)
      && (part.doubleAndEtchSelectionStatus == 1 ==>
            && Names(r)[4 + s..9 + s] == ["Caustic Etch", "Water Rinse (1 or 2)", "Flash Anodise", "Water Rinse (3 or 4)", "Caustic Etch"]
            && Durations(r)[4 + s..9 + s] == [0.25, 1.0, 5.0, 1.0, 3.0])
      && (part.etchSelectionStatus == 1 ==>
            var e := 4 + s + DoubleAndEtchCount(part);
            && Names(r)[e..e + 4] == ["Caustic Etch", "Water Rinse (2 or 1)", "Desmut", "Water Rinse (3 or 4)"]
            && Durations(r)[e..e + 4] == [part.etch.value, 1.0, 1.0, 1.0])
  {
    var s, d := StripCount(part), DoubleAndEtchCount(part);
    var r, an := Route(part, plan), AnodicBlock(part, plan);
    AnodicBlockPlacement(part, plan);
    AnodicBlockShape(part, plan);
    if part.doubleAndEtchSelectionStatus == 1 {
      EmbeddedBlock(r, 1 + s, an, 4 + s, 9 + s);
    }
    if part.etchSelectionStatus == 1 {
      EmbeddedBlock(r, 1 + s, an, 4 + s + d, 8 + s + d);
    }
  }

  lemma AnodisedRouteAnodising(part: PartSpec, plan: LoadPlan)
    requires Compilable(part) && part.anodisingSelectionStatus == 1
    ensures var r := Route(part, plan); var s := StripCount(part);
      var a := 4 + s + DoubleAndEtchCount(part) + EtchCount(part);
      && |r| > a + 1
      && (s == 1 ==> r[1].name == "Strip Etch" && r[1].duration == part.stripEtch.value)
      && r[a].name == "Anodising" && r[a].duration == part.anodisingDuration.GetOr(0) as real
      && r[a].info == Some(VoltageNote(part))
      && r[a + 1].name == "Water Rinse (5 or 6)" && r[a + 1].duration == 1.0
  {
    var s, d := StripCount(part), DoubleAndEtchCount(part);
    var r, an := Route(part, plan), AnodicBlock(part, plan);
    AnodicBlockPlacement(part, plan);
    AnodicBlockShape(part, plan);
    var a := 3 + d + EtchCount(part);
    EmbeddedAt(r, 1 + s, an, a);
    EmbeddedAt(r, 1 + s, an, a + 1);
  }

  lemma AnodicBlockShape(part: PartSpec, plan: LoadPlan)
    requires Compilable(part) && part.anodisingSelectionStatus == 1
    ensures var b := AnodicBlock(part, plan);
      var a := 3 + DoubleAndEtchCount(part) + EtchCount(part);
      && |b| == a + 2
      && Names(b)[..3] == ["Loading", "Degrease", "Water Rinse (1 or 2)"]
      && Durations(b)[..3] == [1.0, 10.0, 1.0]
      && (part.doubleAndEtchSelectionStatus == 1 ==>
            && Names(b)[3..8] == ["Caustic Etch", "Water Rinse (1 or 2)", "Flash Anodise", "Water Rinse (3 or 4)", "Caustic Etch"]
            && Durations(b)[3..8] == [0.25, 1.0, 5.0, 1.0, 3.0])
      && (part.etchSelectionStatus == 1 ==>
            var e := 3 + DoubleAndEtchCount(part);
            && Names(b)[e..e + 4] == ["Caustic Etch", "Water Rinse (2 or 1)", "Desmut", "Water Rinse (3 or 4)"]
            && Durations(b)[e..e + 4] == [part.etch.value, 1.0, 1.0, 1.0])
      && b[a].name == "Anodising" && b[a].duration == part.anodisingDuration.GetOr(0) as real
      && b[a].info == Some(VoltageNote(part))
      && b[a + 1].name == "Water Rinse (5 or 6)" && b[a + 1].duration == 1.0
  {
    var b := AnodicBlock(part, plan);
    var o, de, et, an := AnodicOpening(plan), DoubleAndEtchPart(part, plan), EtchPart(part, plan), AnodisingSteps(part, plan);
    assert b == o + de + et + an;
    assert |o| == 3 && |de| == DoubleAndEtchCount(part) && |et| == EtchCount(part) && |an| == 2;
    FourParts(o, de, et, an);
    NamesSlice(b, 0, 3);
    OpeningNames(plan);
    if part.doubleAndEtchSelectionStatus == 1 {
      NamesSlice(b, 3, 8);
      DoubleAndEtchNames(plan);
    }
    if part.etchSelectionStatus == 1 {
      var e := 3 + |de|;
      NamesSlice(b, e, e + 4);
      EtchNames(part.etch.value, plan);
    }
  }

  /** Each part of a four-part concatenation is found at its offset. */
  lemma FourParts(o: seq<Operation>, de: seq<Operation>, et: seq<Operation>, an: seq<Operation>)
    ensures var b := o + de + et + an;
      && b[..|o|] == o
      && b[|o|..|o| + |de|] == de
      && b[|o| + |de|..|o| + |de| + |et|] == et
      && (forall k :: 0 <= k < |an| ==> b[|o| + |de| + |et| + k] == an[k])
  {
  }

  lemma OpeningNames(plan: LoadPlan)
    ensures Names(AnodicOpening(plan)) == ["Loading", "Degrease", "Water Rinse (1 or 2)"]
    ensures Durations(AnodicOpening(plan)) == [1.0, 10.0, 1.0]
  {
  }

  lemma DoubleAndEtchNames(plan: LoadPlan)
    ensures Names(DoubleAndEtchBlock(plan)) == ["Caustic Etch", "Water Rinse (1 or 2)", "Flash Anodise", "Water Rinse (3 or 4)", "Caustic Etch"]
    ensures Durations(DoubleAndEtchBlock(plan)) == [0.25, 1.0, 5.0, 1.0, 3.0]
  {
  }

  lemma EtchNames(etch: real, plan: LoadPlan)
    ensures Names(EtchBlock(etch, plan)) == ["Caustic Etch", "Water Rinse (2 or 1)", "Desmut", "Water Rinse (3 or 4)"]
    ensures Durations(EtchBlock(etch, plan)) == [etch, 1.0, 1.0, 1.0]
  {
  }

  /** Without anodising, Drying (15), Unjigging and Packing follow Jigging (and Strip Etch) directly. */
  lemma NotAnodisedRoute(part: PartSpec, plan: LoadPlan)
    requires Compilable(part) && part.anodisingSelectionStatus != 1
    ensures var r := Route(part, plan); var s := StripCount(part);
      && |r| > 4 + s
      && Names(r)[1 + s..4 + s] == ["Drying", "Unjigging", "Packing"]
      && Durations(r)[1 + s..4 + s] == [15.0, plan.unjiggingDuration as real, plan.packingDuration as real]
  {
    var s := StripCount(part);
    var r := Route(part, plan);
    var head := [JiggingOp(plan)] + StripBlock(part, plan);
    assert r == head + FinishBlock(plan) + ClosingBlock(part, plan);
    assert r[1 + s..4 + s] == FinishBlock(plan);
    NamesSlice(r, 1 + s, 4 + s);
    FinishNames(plan);
  }

  /**
   * Off-line dyed parts are unloaded, dyed for 20 minutes, rinsed off-line, hot sealed
   * for 30 minutes and rinsed off-line again, before Drying, Unjigging and Packing.
   */
  lemma OffLineDyedTail(part: PartSpec, plan: LoadPlan)
    requires Compilable(part) && part.dyeSelectionStatus == 1 && CategorizeDye(DyeName(part)) == OffLine
    ensures EndsWith(Route(part, plan),
      ["Unloading", DyeName(part), "Off-line rinse", "Hot Seal", "Off-line rinse", "Drying", "Unjigging", "Packing"],
      [1.0, 20.0, 1.0, 30.0, 1.0])
  {
    RouteSplit(part, plan);
    OffLineClosing(part, plan);
    TailOfClosing(Route(part, plan), ClosingBlock(part, plan),
      ["Unloading", DyeName(part), "Off-line rinse", "Hot Seal", "Off-line rinse", "Drying", "Unjigging", "Packing"],
      [1.0, 20.0, 1.0, 30.0, 1.0]);
  }

  lemma OffLineClosing(part: PartSpec, plan: LoadPlan)
    requires Compilable(part) && part.dyeSelectionStatus == 1 && CategorizeDye(DyeName(part)) == OffLine
    ensures var c := ClosingBlock(part, plan);
      && Names(c) == ["Unloading", DyeName(part), "Off-line rinse", "Hot Seal", "Off-line rinse", "Drying", "Unjigging", "Packing"]
      && Durations(c)[..5] == [1.0, 20.0, 1.0, 30.0, 1.0]
  {
    var dye := DyeName(part);
    var head := [Op("Unloading", 1.0, plan), Op(dye, 20.0, plan), Op("Off-line rinse", 1.0, plan),
                 Op("Hot Seal", 30.0, plan), Op("Off-line rinse", 1.0, plan)];
    assert ClosingBlock(part, plan) == head + FinishBlock(plan);
    HeadThenFinish(head, plan);
  }

  /**
   * In-line dyed parts are dyed for 20 minutes, rinsed in Water Rinse (7), sealed under
   * the part's sealing name (30 minutes for "30 min" or "Boiling" seals, else 15), rinsed
   * in Water Rinse (8), and only then unloaded.
   */
  lemma InLineDyedTail(part: PartSpec, plan: LoadPlan)
    requires Compilable(part) && part.dyeSelectionStatus == 1 && CategorizeDye(DyeName(part)) == InLine
    ensures part.sealing.Some?
    ensures var seal := part.sealing.value;
      EndsWith(Route(part, plan),
        [DyeName(part), "Water Rinse (7)", seal, "Water Rinse (8)", "Unloading", "Drying", "Unjigging", "Packing"],
        [20.0, 1.0, SealDuration(seal), 1.0, 1.0])
  {
    var seal := part.sealing.value;
    RouteSplit(part, plan);
    InLineClosing(part, plan);
    TailOfClosing(Route(part, plan), ClosingBlock(part, plan),
      [DyeName(part), "Water Rinse (7)", seal, "Water Rinse (8)", "Unloading", "Drying", "Unjigging", "Packing"],
      [20.0, 1.0, SealDuration(seal), 1.0, 1.0]);
  }

  /** The in-line sealing step, sixth from the end, lasts 30 minutes exactly for "30 min" and "Boiling" seals. */
  lemma InLineSealStep(part: PartSpec, plan: LoadPlan)
    requires Compilable(part) && part.dyeSelectionStatus == 1 && CategorizeDye(DyeName(part)) == InLine
    ensures part.sealing.Some?
    ensures var r := Route(part, plan); var seal := part.sealing.value;
      |r| >= 6 && (r[|r| - 6].duration == 30.0 <==> Contains(seal, "30 min") || Contains(seal, "Boiling"))
  {
    var seal := part.sealing.value;
    InLineDyedTail(part, plan);
    DurationAt(Route(part, plan),
      [DyeName(part), "Water Rinse (7)", seal, "Water Rinse (8)", "Unloading", "Drying", "Unjigging", "Packing"],
      [20.0, 1.0, SealDuration(seal), 1.0, 1.0], 2);
  }

  lemma InLineClosing(part: PartSpec, plan: LoadPlan)
    requires Compilable(part) && part.dyeSelectionStatus == 1 && CategorizeDye(DyeName(part)) == InLine
    ensures part.sealing.Some?
    ensures var c := ClosingBlock(part, plan); var seal := part.sealing.value;
      && Names(c) == [DyeName(part), "Water Rinse (7)", seal, "Water Rinse (8)", "Unloading", "Drying", "Unjigging", "Packing"]
      && Durations(c)[..5] == [20.0, 1.0, SealDuration(seal), 1.0, 1.0]
  {
    var dye, seal := DyeName(part), part.sealing.value;
    var head := [Op(dye, 20.0, plan), Op("Water Rinse (7)", 1.0, plan), Op(seal, SealDuration(seal), plan),
                 Op("Water Rinse (8)", 1.0, plan), Op("Unloading", 1.0, plan)];
    assert ClosingBlock(part, plan) == head + FinishBlock(plan);
    HeadThenFinish(head, plan);
  }

  /** Undyed parts sealed with "Hot Seal" are unloaded first, hot sealed for 30 minutes and rinsed off-line. */
  lemma UndyedHotSealTail(part: PartSpec, plan: LoadPlan)
    requires Compilable(part) && part.dyeSelectionStatus == 0 && part.sealing == Some("Hot Seal")
    ensures EndsWith(Route(part, plan),
      ["Unloading", "Hot Seal", "Off-line rinse", "Drying", "Unjigging", "Packing"],
      [1.0, 30.0, 1.0])
  {
    RouteSplit(part, plan);
    UndyedHotSealClosing(part, plan);
    TailOfClosing(Route(part, plan), ClosingBlock(part, plan),
      ["Unloading", "Hot Seal", "Off-line rinse", "Drying", "Unjigging", "Packing"],
      [1.0, 30.0, 1.0]);
  }

  lemma UndyedHotSealClosing(part: PartSpec, plan: LoadPlan)
    requires Compilable(part) && part.dyeSelectionStatus == 0 && part.sealing == Some("Hot Seal")
    ensures var c := ClosingBlock(part, plan);
      && Names(c) == ["Unloading", "Hot Seal", "Off-line rinse", "Drying", "Unjigging", "Packing"]
      && Durations(c)[..3] == [1.0, 30.0, 1.0]
  {
    var head := [Op("Unloading", 1.0, plan), Op("Hot Seal", 30.0, plan), Op("Off-line rinse", 1.0, plan)];
    assert ClosingBlock(part, plan) == head + FinishBlock(plan);
    HeadThenFinish(head, plan);
  }

  /**
   * Other undyed parts get their sealing step (its name as stored, "No sealing" included)
   * and Water Rinse (8), then Unloading.
   */
  lemma UndyedSealTail(part: PartSpec, plan: LoadPlan)
    requires Compilable(part) && part.dyeSelectionStatus == 0 && part.sealing != Some("Hot Seal")
    ensures part.sealing.Some?
    ensures var seal := part.sealing.value;
      EndsWith(Route(part, plan),
        [seal, "Water Rinse (8)", "Unloading", "Drying", "Unjigging", "Packing"],
        [SealDuration(seal), 1.0, 1.0])
  {
    var seal := part.sealing.value;
    RouteSplit(part, plan);
    UndyedSealClosing(part, plan);
    TailOfClosing(Route(part, plan), ClosingBlock(part, plan),
      [seal, "Water Rinse (8)", "Unloading", "Drying", "Unjigging", "Packing"],
      [SealDuration(seal), 1.0, 1.0]);
  }

  lemma UndyedSealClosing(part: PartSpec, plan: LoadPlan)
    requires Compilable(part) && part.dyeSelectionStatus == 0 && part.sealing != Some("Hot Seal")
    ensures part.sealing.Some?
    ensures var c := ClosingBlock(part, plan); var seal := part.sealing.value;
      && Names(c) == [seal, "Water Rinse (8)", "Unloading", "Drying", "Unjigging", "Packing"]
      && Durations(c)[..3] == [SealDuration(seal), 1.0, 1.0]
  {
    var seal := part.sealing.value;
    var head := [Op(seal, SealDuration(seal), plan), Op("Water Rinse (8)", 1.0, plan), Op("Unloading", 1.0, plan)];
    assert ClosingBlock(part, plan) == head + FinishBlock(plan);
    HeadThenFinish(head, plan);
  }

  /** A dye selected under a "none" name ("No", "Default (un-dyed)") takes no branch: only Unloading precedes the finish. */
  lemma NoDyeCategoryTail(part: PartSpec, plan: LoadPlan)
    requires Compilable(part) && part.dyeSelectionStatus == 1 && CategorizeDye(DyeName(part)) == NoDye
    ensures EndsWith(Route(part, plan), ["Unloading", "Drying", "Unjigging", "Packing"], [1.0])
  {
    RouteSplit(part, plan);
    NoDyeClosing(part, plan);
    TailOfClosing(Route(part, plan), ClosingBlock(part, plan), ["Unloading", "Drying", "Unjigging", "Packing"], [1.0]);
  }

  lemma NoDyeClosing(part: PartSpec, plan: LoadPlan)
    requires Compilable(part) && part.dyeSelectionStatus == 1 && CategorizeDye(DyeName(part)) == NoDye
    ensures Names(ClosingBlock(part, plan)) == ["Unloading", "Drying", "Unjigging", "Packing"]
    ensures Durations(ClosingBlock(part, plan))[..1] == [1.0]
  {
    var head := [Op("Unloading", 1.0, plan)];
    assert ClosingBlock(part, plan) == head + FinishBlock(plan);
    HeadThenFinish(head, plan);
  }

  /** The names and durations at the end of the route are those of the closing block. */
  lemma TailNames(part: PartSpec, plan: LoadPlan)
    requires Compilable(part)
    ensures var r := Route(part, plan); var c := ClosingBlock(part, plan);
      && |r| >= |c|
      && Names(r)[|r| - |c|..] == Names(c)
      && Durations(r)[|r| - |c|..] == Durations(c)
  {
    RouteSplit(part, plan);
    SuffixShape(Route(part, plan), ClosingBlock(part, plan), 0);
  }

  /**
   * Polishing adds one entry per step lasting four times the total jigging time, and
   * blasting one entry lasting twice that time, in that order.
   */
  lemma LoadIndependentDurations(part: PartSpec, plan: LoadPlan)
    ensures var li := LoadIndependentOperations(part, plan);
      var p := if part.polishingSelectionStatus == 1 then |part.polishing| else 0;
      && |li| == p + (if part.blastingSelectionStatus == 1 then 1 else 0)
      && (forall i :: 0 <= i < p ==> li[i].duration == 4 * plan.totalJiggingDuration)
      && (part.blastingSelectionStatus == 1 ==> li[p].duration == 2 * plan.totalJiggingDuration)
  {
  }
}
