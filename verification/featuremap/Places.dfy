/** Where findings are placed: a rule is reported at an item exactly when that very item breaks it. */
module Places {
  import opened Timing
  import opened Documents
  import opened Findings
  import opened Exact
  import opened Paths

  /** Some finding names the rule at the place. */
  predicate Reported(s: seq<Finding>, root: Root, r: Rule) { exists f :: f in s && f.root == root && f.rule == r }

  predicate Rooted(s: seq<Finding>, root: Root) { forall f :: f in s ==> f.root == root }

  lemma ReportedAppend(a: seq<Finding>, b: seq<Finding>, root: Root, r: Rule)
    ensures Reported(a + b, root, r) <==> Reported(a, root, r) || Reported(b, root, r)
  {
    assert forall f :: f in a + b <==> f in a || f in b;
  }

  lemma {:induction false} RuleShown(s: seq<Finding>, r: Rule) returns (f: Finding)
    requires r in Rules(s)
    ensures f in s && f.rule == r
    decreases s
  {
    f := s[|s| - 1];
    if f.rule != r { f := RuleShown(s[..|s| - 1], r); }
  }

  lemma ReportedRooted(s: seq<Finding>, place: Root, root: Root, r: Rule)
    requires Rooted(s, place)
    ensures Reported(s, root, r) <==> root == place && r in Rules(s)
  {
    hide Rules;
    if f :| f in s && f.root == root && f.rule == r { RuleOf(f, s); }
    if root == place && r in Rules(s) { var f := RuleShown(s, r); }
  }

  ghost predicate SomewhereReported(g: nat -> seq<Finding>, n: nat, root: Root, r: Rule) {
    exists i: nat :: i < n && Reported(g(i), root, r)
  }

  lemma {:induction false} ReportedCollect(g: nat -> seq<Finding>, n: nat, root: Root, r: Rule)
    ensures Reported(Collect(g, n), root, r) <==> SomewhereReported(g, n, root, r)
    decreases n
  {
    hide Reported;
    if n == 0 {
      ReportedNothing(root, r);
    } else {
      ReportedCollect(g, n - 1, root, r);
      ReportedAppend(Collect(g, n - 1), g(n - 1), root, r);
      if SomewhereReported(g, n, root, r) {
        var i: nat :| i < n && Reported(g(i), root, r);
        assert i < n - 1 || i == n - 1;
      }
    }
  }

  lemma ReportedNothing(root: Root, r: Rule)
    ensures !Reported([], root, r)
  {
  }

  // ---- The map ----

  lemma RootedAppend(a: seq<Finding>, b: seq<Finding>, root: Root)
    requires Rooted(a, root) && Rooted(b, root)
    ensures Rooted(a + b, root)
  {
    assert forall f :: f in a + b <==> f in a || f in b;
  }

  lemma AxisRooted(m: FeatureMap, i: nat, name: string)
    requires i < |m.features|
    ensures Rooted(AxisFindings(m, i, name), InFeature(i))
  {
    hide FirstIndex, IntegerScalar, NoDiscretize;
  }

  lemma GridRooted(m: FeatureMap, i: nat)
    requires i < |m.features|
    ensures Rooted(GridFindings(m, i), InFeature(i))
  {
    hide AxisFindings, FirstIndex, Rooted;
    var (d, root) := (m.features[i].discretize, InFeature(i));
    RootedNothing(root);
    if d.Some? && d.value.Grid? {
      var (w, h) := (When(d.value.cellW < 1, GridRule, root, []), When(d.value.cellH < 1, GridRule, root, []));
      var (x, y, room) := (AxisFindings(m, i, d.value.x), AxisFindings(m, i, d.value.y),
        RoomFindings(m, i, d.value.room));
      WhenRooted(d.value.cellW < 1, GridRule, root);
      WhenRooted(d.value.cellH < 1, GridRule, root);
      WhenRooted(!GuardOk(m, d.value.room), GridRule, root);
      AxisRooted(m, i, d.value.x);
      AxisRooted(m, i, d.value.y);
      RootedAppend(w, h, root);
      RootedAppend(w + h, x, root);
      RootedAppend(w + h + x, y, root);
      RootedAppend(w + h + x + y, room, root);
    }
  }

  lemma WhenRooted(broken: bool, rule: Rule, root: Root)
    ensures Rooted(When(broken, rule, root, []), root)
  {
  }

  lemma RootedNothing(root: Root)
    ensures Rooted([], root)
  {
  }

  lemma CheckRooted(c: Check, m: FeatureMap, i: nat)
    ensures Rooted(CheckOne(c, m, i), InFeature(i))
  {
    hide FirstIndex, RegionSizes, ValidName, DiscretizeOk, BitflagsOk, GuardOk, ResolvedWidth, GridFindings;
    if i < |m.features| { GridRooted(m, i); }
  }

  lemma PassPlaces(c: Check, m: FeatureMap, root: Root, r: Rule)
    ensures Reported(Pass(c, m), root, r) <==>
            root.InFeature? && root.i < |m.features| && CheckOf(r) == Some(c) && FeatureBreaks(r, m, root.i)
  {
    hide Reported, Rooted, CheckOne, FeatureBreaks, CheckOf, Rules;
    ReportedCollect(Checking(c, m), |m.features|, root, r);
    forall i: nat | i < |m.features|
      ensures Reported(Checking(c, m)(i), root, r)
              <==> root == InFeature(i) && CheckOf(r) == Some(c) && FeatureBreaks(r, m, i)
    {
      CheckRooted(c, m, i);
      ReportedRooted(CheckOne(c, m, i), InFeature(i), root, r);
      CheckRules(c, m, i, r);
    }
  }

  lemma WhenPlaces(broken: bool, rule: Rule, place: Root, root: Root, r: Rule)
    ensures Reported(When(broken, rule, place, []), root, r) <==> broken && root == place && r == rule
  {
    if broken { assert Finding(rule, place, []) in When(broken, rule, place, []); }
  }

  lemma BreaksHaveCheck(m: FeatureMap, i: nat, r: Rule)
    requires i < |m.features| && FeatureBreaks(r, m, i)
    ensures exists c :: CheckOf(r) == Some(c)
  {
    assert CheckOf(r) == Some(CheckOf(r).value);
  }

  lemma MapPlaces(m: FeatureMap, root: Root, r: Rule)
    ensures Reported(MapFindings(m), root, r) <==>
            || (root.InFeature? && root.i < |m.features| && FeatureBreaks(r, m, root.i))
            || (root == InMeta && r == MapName && !ValidMapName(m.name))
  {
    hide Reported, When, Pass, FeatureBreaks, CheckOf, ValidMapName;
    var named := When(!ValidMapName(m.name), MapName, InMeta, []);
    var (a, b) := (Pass(FeatureCheck, m), Pass(DiscretizeCheck, m));
    var (d, g, v) := (Pass(BitflagsCheck, m), Pass(GridCheck, m), Pass(GuardCheck, m));
    ReportedAppend(a + b + named + d + g, v, root, r);
    ReportedAppend(a + b + named + d, g, root, r);
    ReportedAppend(a + b + named, d, root, r);
    ReportedAppend(a + b, named, root, r);
    ReportedAppend(a, b, root, r);
    WhenPlaces(!ValidMapName(m.name), MapName, InMeta, root, r);
    PassPlaces(FeatureCheck, m, root, r);
    PassPlaces(DiscretizeCheck, m, root, r);
    PassPlaces(BitflagsCheck, m, root, r);
    PassPlaces(GridCheck, m, root, r);
    PassPlaces(GuardCheck, m, root, r);
    if root.InFeature? && root.i < |m.features| && FeatureBreaks(r, m, root.i) {
      BreaksHaveCheck(m, root.i, r);
      var c :| CheckOf(r) == Some(c);
      assert c.FeatureCheck? || c.DiscretizeCheck? || c.BitflagsCheck? || c.GridCheck? || c.GuardCheck?;
    }
  }

  // ---- The program ----

  lemma PredPlaces(p: Pred, index: Option<map<string, Feature>>, place: Root, root: Root, r: Rule)
    ensures Reported(PredFindings(p, index, place, []), root, r) <==> root == place && PredBreaks(r, p, index)
  {
    hide Reported, PredFindings, PredBreaks, PointsAt, Rules;
    var s := PredFindings(p, index, place, []);
    forall f | f in s ensures f.root == place { Placed(p, index, place, f); }
    ReportedRooted(s, place, root, r);
    PredRules(p, index, place, [], r);
  }

  lemma Placed(p: Pred, index: Option<map<string, Feature>>, place: Root, f: Finding)
    requires f in PredFindings(p, index, place, [])
    ensures f.root == place
  {
    hide PredFindings;
    FindingPoints(p, index, place, [], f);
  }

  /** The item at a place has a predicate that breaks the rule. */
  ghost predicate PredAtBreaks(r: Rule, sp: Program, index: Option<map<string, Feature>>, root: Root) {
    match root
    case InStage(i) => i < |sp.stages| && PredBreaks(r, sp.stages[i].when, index)
    case InPenalty(i) => i < |sp.penalties| && PredBreaks(r, sp.penalties[i], index)
    case InGoal => PredBreaks(r, sp.goal, index)
    case _ => false
  }

  lemma StagePredPlaces(sp: Program, index: Option<map<string, Feature>>, root: Root, r: Rule)
    ensures Reported(Collect(StagePred(sp, index), |sp.stages|), root, r)
            <==> root.InStage? && PredAtBreaks(r, sp, index, root)
  {
    hide Reported, PredFindings, PredBreaks;
    ReportedCollect(StagePred(sp, index), |sp.stages|, root, r);
    forall i: nat | i < |sp.stages|
      ensures Reported(StagePred(sp, index)(i), root, r) <==>
              root == InStage(i) && PredBreaks(r, sp.stages[i].when, index)
    {
      PredPlaces(sp.stages[i].when, index, InStage(i), root, r);
    }
  }

  lemma PenaltyPredPlaces(sp: Program, index: Option<map<string, Feature>>, root: Root, r: Rule)
    ensures Reported(Collect(PenaltyPred(sp, index), |sp.penalties|), root, r)
            <==> root.InPenalty? && PredAtBreaks(r, sp, index, root)
  {
    hide Reported, PredFindings, PredBreaks;
    ReportedCollect(PenaltyPred(sp, index), |sp.penalties|, root, r);
    forall i: nat | i < |sp.penalties|
      ensures Reported(PenaltyPred(sp, index)(i), root, r) <==>
              root == InPenalty(i) && PredBreaks(r, sp.penalties[i], index)
    {
      PredPlaces(sp.penalties[i], index, InPenalty(i), root, r);
    }
  }

  lemma ProgramPlaces(sp: Program, index: Option<map<string, Feature>>, root: Root, r: Rule)
    ensures Reported(ProgramPreds(sp, index), root, r) <==> PredAtBreaks(r, sp, index, root)
  {
    hide Reported, PredFindings, PredBreaks, Collect;
    var (s, p) := (Collect(StagePred(sp, index), |sp.stages|), Collect(PenaltyPred(sp, index), |sp.penalties|));
    ReportedAppend(s + p, PredFindings(sp.goal, index, InGoal, []), root, r);
    ReportedAppend(s, p, root, r);
    StagePredPlaces(sp, index, root, r);
    PenaltyPredPlaces(sp, index, root, r);
    PredPlaces(sp.goal, index, InGoal, root, r);
  }

  lemma PointsPlaces(sp: Program, root: Root, r: Rule)
    ensures Reported(Collect(StagePoints(sp), |sp.stages|), root, r)
            <==> root.InStage? && root.i < |sp.stages| && r == Points && sp.stages[root.i].points < 0
  {
    hide Reported, When;
    ReportedCollect(StagePoints(sp), |sp.stages|, root, r);
    forall i: nat | i < |sp.stages|
      ensures Reported(StagePoints(sp)(i), root, r) <==> root == InStage(i) && r == Points && sp.stages[i].points < 0
    {
      WhenPlaces(sp.stages[i].points < 0, Points, InStage(i), root, r);
    }
  }

  lemma {:induction false} MissingRooted(sp: Program, i: nat, reqs: seq<string>)
    requires i <= |sp.stages|
    ensures Rooted(MissingRequires(sp, i, reqs), InStage(i))
    decreases reqs
  {
    hide EarlierStage;
    if reqs != [] { MissingRooted(sp, i, reqs[..|reqs| - 1]); }
  }

  lemma RequiresPlaces(sp: Program, root: Root, r: Rule)
    ensures Reported(Collect(StageRequires(sp), |sp.stages|), root, r)
            <==> root.InStage? && root.i < |sp.stages| && r == Requires && !RequiresOk(sp, root.i)
  {
    hide Reported, RequiresOk, Rules, MissingRequires;
    ReportedCollect(StageRequires(sp), |sp.stages|, root, r);
    forall i: nat | i < |sp.stages|
      ensures Reported(StageRequires(sp)(i), root, r) <==> root == InStage(i) && r == Requires && !RequiresOk(sp, i)
    {
      if sp.stages[i].requires_.Some? { MissingRooted(sp, i, sp.stages[i].requires_.value); }
      ReportedRooted(StageRequires(sp)(i), InStage(i), root, r);
      StageRequiresRules(sp, i, r);
    }
  }

  lemma ShapingPlaces(sp: Program, index: map<string, Feature>, root: Root, r: Rule)
    ensures Reported(Collect(ShapingOne(sp, index), |sp.shaping|), root, r)
            <==> root.InShaping? && root.i < |sp.shaping| && ShapingBreaks(r, sp.shaping[root.i], index)
  {
    hide Reported, ShapingBreaks, Rules;
    ReportedCollect(ShapingOne(sp, index), |sp.shaping|, root, r);
    forall i: nat | i < |sp.shaping|
      ensures Reported(ShapingOne(sp, index)(i), root, r) <==>
              root == InShaping(i) && ShapingBreaks(r, sp.shaping[i], index)
    {
      ReportedRooted(ShapingOne(sp, index)(i), InShaping(i), root, r);
      ShapingOneRules(sp, index, i, r);
    }
  }

  // ---- The pair ----

  /** The item at the place breaks the rule. */
  ghost predicate Blamed(root: Root, r: Rule, m: FeatureMap, sp: Program) {
    var index := LastIndex(m.features, |m.features|);
    || PredAtBreaks(r, sp, None, root) || PredAtBreaks(r, sp, Some(index), root)
    || match root
       case InFeature(i) => i < |m.features| && FeatureBreaks(r, m, i)
       case InStage(i) =>
         i < |sp.stages| && ((r == Points && sp.stages[i].points < 0) || (r == Requires && !RequiresOk(sp, i)))
       case InShaping(i) => i < |sp.shaping| && ShapingBreaks(r, sp.shaping[i], index)
       case InMeta =>
         || (r == MapName && !ValidMapName(m.name)) || (r == Monotone && !sp.monotone)
         || (r == MapRef && sp.featureMap != m.name)
       case _ => false
  }

  lemma AlonePlaces(sp: Program, root: Root, r: Rule)
    ensures Reported(AloneFindings(sp), root, r) <==>
            || (root == InMeta && r == Monotone && !sp.monotone)
            || (root.InStage? && root.i < |sp.stages| && r == Points && sp.stages[root.i].points < 0)
            || PredAtBreaks(r, sp, None, root)
  {
    hide Reported, When, ProgramPreds, PredAtBreaks, Collect;
    var (a, b) := (When(!sp.monotone, Monotone, InMeta, []), Collect(StagePoints(sp), |sp.stages|));
    ReportedAppend(a + b, ProgramPreds(sp, None), root, r);
    ReportedAppend(a, b, root, r);
    WhenPlaces(!sp.monotone, Monotone, InMeta, root, r);
    PointsPlaces(sp, root, r);
    ProgramPlaces(sp, None, root, r);
  }

  /** Findings blame the right item: a rule is reported at a place if and only if the item there breaks it. */
  lemma PlacesExactly(m: FeatureMap, sp: Program, root: Root, r: Rule)
    ensures Reported(PairFindings(m, sp), root, r) <==> Blamed(root, r, m, sp)
  {
    hide Reported, When, MapFindings, AloneFindings, ProgramPreds, Collect, PredAtBreaks, FeatureBreaks, ShapingBreaks;
    hide RequiresOk, ValidMapName, LastIndex;
    var index := LastIndex(m.features, |m.features|);
    var (a, b, c) := (MapFindings(m), AloneFindings(sp), When(sp.featureMap != m.name, MapRef, InMeta, []));
    var (d, g) := (Collect(StageRequires(sp), |sp.stages|), ProgramPreds(sp, Some(index)));
    ReportedAppend(a + b + c + d + g, Collect(ShapingOne(sp, index), |sp.shaping|), root, r);
    ReportedAppend(a + b + c + d, g, root, r);
    ReportedAppend(a + b + c, d, root, r);
    ReportedAppend(a + b, c, root, r);
    ReportedAppend(a, b, root, r);
    MapPlaces(m, root, r);
    AlonePlaces(sp, root, r);
    WhenPlaces(sp.featureMap != m.name, MapRef, InMeta, root, r);
    RequiresPlaces(sp, root, r);
    ProgramPlaces(sp, Some(index), root, r);
    ShapingPlaces(sp, index, root, r);
  }
}
