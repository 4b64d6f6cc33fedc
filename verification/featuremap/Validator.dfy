/** The validator's loops and walks, proved to report exactly the specified findings in order. */
module Validator {
  import opened Timing
  import opened Documents
  import opened Findings

  lemma CollectOne(f: nat -> seq<Finding>, n: nat)
    ensures Collect(f, n + 1) == Collect(f, n) + f(n)
  {
  }

  // ---- The map ----

  method BuildRegions(rs: seq<Region>) returns (sizes: map<string, nat>)
    ensures sizes == RegionSizes(rs, |rs|)
  {
    sizes := map[];
    for i := 0 to |rs|
      invariant sizes == RegionSizes(rs, i)
    {
      sizes := sizes[rs[i].name := rs[i].size];
    }
  }

  method BuildLastIndex(fs: seq<Feature>) returns (index: map<string, Feature>)
    ensures index == LastIndex(fs, |fs|)
  {
    index := map[];
    for i := 0 to |fs|
      invariant index == LastIndex(fs, i)
    {
      index := index[fs[i].name := fs[i]];
    }
  }

  /** The width to check bounds with, or the finding that there is none. */
  method ResolveWidth(f: Feature, i: nat) returns (width: Option<nat>, errors: seq<Finding>)
    ensures width == ResolvedWidth(f)
    ensures errors == if width.Some? then []
                      else [Finding(if f.kind.Bytes? then Width else WidthMismatch, InFeature(i), [])]
  {
    if f.kind.Bytes? {
      if f.width.None? { return None, [Finding(Width, InFeature(i), [])]; }
      return f.width, [];
    }
    var derived := DerivedWidth(f.kind);
    if f.width.Some? && f.width != derived { return None, [Finding(WidthMismatch, InFeature(i), [])]; }
    return derived, [];
  }

  method CheckPlacement(m: FeatureMap, sizes: map<string, nat>, i: nat) returns (errors: seq<Finding>)
    requires i < |m.features| && sizes == RegionSizes(m.regions, |m.regions|)
    ensures errors == PlacementFindings(m, i)
  {
    var f := m.features[i];
    if f.region !in sizes { return [Finding(Names, InFeature(i), [])]; }
    var width, unresolved := ResolveWidth(f, i);
    if width.None? { return unresolved; }
    if f.offset < 0 { return [Finding(Names, InFeature(i), [])]; }
    if f.offset + width.value > sizes[f.region] { return [Finding(Names, InFeature(i), [])]; }
    return [];
  }

  method CheckFeature(m: FeatureMap, sizes: map<string, nat>, index: map<string, Feature>, i: nat)
    returns (errors: seq<Finding>)
    requires i < |m.features| && sizes == RegionSizes(m.regions, |m.regions|) && index == FirstIndex(m.features, i)
    ensures errors == FeatureFindings(m, i)
  {
    hide PlacementFindings, ValidName, RegionSizes, FirstIndex;
    var f := m.features[i];
    errors := [];
    if !ValidName(f.name) { errors := [Finding(Names, InFeature(i), [])]; }
    if f.name in index { errors := errors + [Finding(Names, InFeature(i), [])]; }
    var placed := CheckPlacement(m, sizes, i);
    errors := errors + placed;
  }

  /** Names, regions and bounds, building the index that keeps the first feature of a name. */
  method FeaturePass(m: FeatureMap) returns (errors: seq<Finding>, index: map<string, Feature>)
    ensures errors == Pass(FeatureCheck, m) && index == FirstIndex(m.features, |m.features|)
  {
    hide FeatureFindings, RegionSizes;
    var sizes := BuildRegions(m.regions);
    errors, index := [], map[];
    for i := 0 to |m.features|
      invariant errors == Collect(Checking(FeatureCheck, m), i) && index == FirstIndex(m.features, i)
    {
      CollectOne(Checking(FeatureCheck, m), i);
      var found := CheckFeature(m, sizes, index, i);
      errors := errors + found;
      if m.features[i].name !in index { index := index[m.features[i].name := m.features[i]]; }
    }
  }

  method DiscretizePass(m: FeatureMap) returns (errors: seq<Finding>)
    ensures errors == Pass(DiscretizeCheck, m)
  {
    hide DiscretizeOk;
    errors := [];
    for i := 0 to |m.features|
      invariant errors == Collect(Checking(DiscretizeCheck, m), i)
    {
      CollectOne(Checking(DiscretizeCheck, m), i);
      if !DiscretizeOk(m.features[i].discretize) { errors := errors + [Finding(DiscretizeRule, InFeature(i), [])]; }
    }
  }

  method BitflagsPass(m: FeatureMap) returns (errors: seq<Finding>)
    ensures errors == Pass(BitflagsCheck, m)
  {
    hide BitflagsOk;
    errors := [];
    for i := 0 to |m.features|
      invariant errors == Collect(Checking(BitflagsCheck, m), i)
    {
      CollectOne(Checking(BitflagsCheck, m), i);
      if !BitflagsOk(m.features[i]) { errors := errors + [Finding(BitflagsDiscretize, InFeature(i), [])]; }
    }
  }

  method CheckAxis(m: FeatureMap, index: map<string, Feature>, i: nat, name: string) returns (errors: seq<Finding>)
    requires i < |m.features| && index == FirstIndex(m.features, |m.features|)
    ensures errors == AxisFindings(m, i, name)
  {
    if name !in index { return [Finding(GridRule, InFeature(i), [])]; }
    var axis := index[name];
    errors := [];
    if !IntegerScalar(axis.kind) { errors := [Finding(GridRule, InFeature(i), [])]; }
    if axis.name != m.features[i].name && !NoDiscretize(axis.discretize) {
      errors := errors + [Finding(GridRule, InFeature(i), [])];
    }
  }

  method ValidateGrid(m: FeatureMap, index: map<string, Feature>, i: nat) returns (errors: seq<Finding>)
    requires i < |m.features| && index == FirstIndex(m.features, |m.features|)
    ensures errors == GridFindings(m, i)
  {
    hide AxisFindings;
    var d := m.features[i].discretize;
    if d.None? || !d.value.Grid? { return []; }
    errors := [];
    if d.value.cellW < 1 { errors := errors + [Finding(GridRule, InFeature(i), [])]; }
    if d.value.cellH < 1 { errors := errors + [Finding(GridRule, InFeature(i), [])]; }
    var x := CheckAxis(m, index, i, d.value.x);
    var y := CheckAxis(m, index, i, d.value.y);
    errors := errors + x + y;
    if d.value.room !in index || !index[d.value.room].stable {
      errors := errors + [Finding(GridRule, InFeature(i), [])];
    }
  }

  method GridPass(m: FeatureMap, index: map<string, Feature>) returns (errors: seq<Finding>)
    requires index == FirstIndex(m.features, |m.features|)
    ensures errors == Pass(GridCheck, m)
  {
    hide GridFindings;
    errors := [];
    for i := 0 to |m.features|
      invariant errors == Collect(Checking(GridCheck, m), i)
    {
      CollectOne(Checking(GridCheck, m), i);
      var found := ValidateGrid(m, index, i);
      errors := errors + found;
    }
  }

  method GuardPass(m: FeatureMap, index: map<string, Feature>) returns (errors: seq<Finding>)
    requires index == FirstIndex(m.features, |m.features|)
    ensures errors == Pass(GuardCheck, m)
  {
    errors := [];
    for i := 0 to |m.features|
      invariant errors == Collect(Checking(GuardCheck, m), i)
    {
      CollectOne(Checking(GuardCheck, m), i);
      var guard := m.features[i].validWhen;
      if guard.Some? && (guard.value !in index || !index[guard.value].stable) {
        errors := errors + [Finding(Guard, InFeature(i), [])];
      }
    }
  }

  method ValidateMap(m: FeatureMap) returns (errors: seq<Finding>)
    ensures errors == MapFindings(m)
  {
    hide Pass, ValidMapName;
    var named, index := FeaturePass(m);
    var discretized := DiscretizePass(m);
    errors := named + discretized;
    if !ValidMapName(m.name) { errors := errors + [Finding(MapName, InMeta, [])]; }
    var flags := BitflagsPass(m);
    var grids := GridPass(m, index);
    var guards := GuardPass(m, index);
    errors := errors + flags + grids + guards;
  }

  // ---- Predicates ----

  /** The recursive walk, shared by the stand-alone bit range check and the check against the map. */
  method WalkPred(p: Pred, index: Option<map<string, Feature>>, root: Root, path: seq<Step>)
    returns (errors: seq<Finding>)
    ensures errors == PredFindings(p, index, root, path)
    decreases p
  {
    hide LeafFindings;
    match p {
      case LeafPred(l) => errors := LeafFindings(l, index, root, path);
      case Not(q) => errors := WalkPred(q, index, root, path + [NotAt]);
      case All(ps) => errors := WalkList(p, ps, true, index, root, path);
      case Any(ps) => errors := WalkList(p, ps, false, index, root, path);
    }
  }

  method WalkList(p: Pred, ps: seq<Pred>, all: bool, index: Option<map<string, Feature>>, root: Root, path: seq<Step>)
    returns (errors: seq<Finding>)
    requires p == if all then All(ps) else Any(ps)
    ensures errors == ListFindings(ps, all, index, root, path)
    decreases p, 0
  {
    errors := [];
    for i := 0 to |ps|
      invariant errors == ListFindings(ps[..i], all, index, root, path)
    {
      var found := WalkPred(ps[i], index, root, path + [if all then AllAt(i) else AnyAt(i)]);
      assert ps[..i + 1][..i] == ps[..i];
      errors := errors + found;
    }
    assert ps[..|ps|] == ps;
  }

  method WalkProgram(sp: Program, index: Option<map<string, Feature>>) returns (errors: seq<Finding>)
    ensures errors == ProgramPreds(sp, index)
  {
    hide PredFindings;
    errors := [];
    for i := 0 to |sp.stages|
      invariant errors == Collect(StagePred(sp, index), i)
    {
      CollectOne(StagePred(sp, index), i);
      var found := WalkPred(sp.stages[i].when, index, InStage(i), []);
      errors := errors + found;
    }
    var penalties := [];
    for i := 0 to |sp.penalties|
      invariant penalties == Collect(PenaltyPred(sp, index), i)
    {
      CollectOne(PenaltyPred(sp, index), i);
      var found := WalkPred(sp.penalties[i], index, InPenalty(i), []);
      penalties := penalties + found;
    }
    var goal := WalkPred(sp.goal, index, InGoal, []);
    errors := errors + penalties + goal;
  }

  // ---- The pair ----

  method ValidateStandalone(sp: Program) returns (errors: seq<Finding>)
    ensures errors == AloneFindings(sp)
  {
    hide ProgramPreds;
    var points := [];
    for i := 0 to |sp.stages|
      invariant points == Collect(StagePoints(sp), i)
    {
      CollectOne(StagePoints(sp), i);
      if sp.stages[i].points < 0 { points := points + [Finding(Points, InStage(i), [])]; }
    }
    var walked := WalkProgram(sp, None);
    errors := (if !sp.monotone then [Finding(Monotone, InMeta, [])] else []) + points + walked;
  }

  method CheckRequires(sp: Program, i: nat) returns (errors: seq<Finding>)
    requires i < |sp.stages|
    ensures errors == StageRequires(sp)(i)
  {
    hide EarlierStage;
    if sp.stages[i].requires_.None? { return []; }
    var reqs := sp.stages[i].requires_.value;
    var missing := [];
    for k := 0 to |reqs|
      invariant missing == MissingRequires(sp, i, reqs[..k])
    {
      assert reqs[..k + 1][..k] == reqs[..k];
      if !EarlierStage(sp, i, reqs[k]) { missing := missing + [Finding(Requires, InStage(i), [])]; }
    }
    assert reqs[..|reqs|] == reqs;
    errors := (if |reqs| > 8 then [Finding(Requires, InStage(i), [])] else []) + missing;
  }

  method ValidatePair(m: FeatureMap, sp: Program) returns (errors: seq<Finding>)
    ensures errors == PairFindings(m, sp)
  {
    hide MapFindings, AloneFindings, ProgramPreds, LastIndex;
    var own := ValidateMap(m);
    var alone := ValidateStandalone(sp);
    var index := BuildLastIndex(m.features);
    var required := [];
    for i := 0 to |sp.stages|
      invariant required == Collect(StageRequires(sp), i)
    {
      CollectOne(StageRequires(sp), i);
      var found := CheckRequires(sp, i);
      required := required + found;
    }
    var walked := WalkProgram(sp, Some(index));
    var shaped := [];
    for i := 0 to |sp.shaping|
      invariant shaped == Collect(ShapingOne(sp, index), i)
    {
      CollectOne(ShapingOne(sp, index), i);
      shaped := shaped + ShapingOne(sp, index)(i);
    }
    var mapRef := if sp.featureMap != m.name then [Finding(MapRef, InMeta, [])] else [];
    errors := own + alone + mapRef + required + walked + shaped;
  }
}
