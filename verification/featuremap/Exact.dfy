/** The validator is sound and complete: a rule is reported exactly when it is broken. */
module Exact {
  import opened Timing
  import opened Documents
  import opened Findings

  // ---- Rules about one feature ----

  predicate Declared(m: FeatureMap, f: Feature) { f.region in RegionSizes(m.regions, |m.regions|) }

  /** The feature's bytes lie within its region. */
  predicate InBounds(m: FeatureMap, f: Feature)
    requires Declared(m, f) && ResolvedWidth(f).Some?
  {
    0 <= f.offset && f.offset + ResolvedWidth(f).value <= RegionSizes(m.regions, |m.regions|)[f.region]
  }

  predicate AxisOk(m: FeatureMap, carrier: Feature, name: string) {
    var index := FirstIndex(m.features, |m.features|);
    && name in index && IntegerScalar(index[name].kind)
    && (index[name].name == carrier.name || NoDiscretize(index[name].discretize))
  }

  predicate GridOk(m: FeatureMap, f: Feature) {
    f.discretize.Some? && f.discretize.value.Grid? ==>
      var d := f.discretize.value;
      d.cellW >= 1 && d.cellH >= 1 && AxisOk(m, f, d.x) && AxisOk(m, f, d.y) && GuardOk(m, d.room)
  }

  /** Width is only asked of features whose region is declared, bounds only when the width is settled too. */
  ghost predicate FeatureBreaks(r: Rule, m: FeatureMap, i: nat)
    requires i < |m.features|
  {
    var f := m.features[i];
    match r
    case Names => !ValidName(f.name) || Repeats(m.features, i) || !Declared(m, f)
      || (ResolvedWidth(f).Some? && !InBounds(m, f))
    case Width => Declared(m, f) && f.kind.Bytes? && f.width.None?
    case WidthMismatch => Declared(m, f) && !f.kind.Bytes? && f.width.Some? && f.width != DerivedWidth(f.kind)
    case DiscretizeRule => !DiscretizeOk(f.discretize)
    case BitflagsDiscretize => !BitflagsOk(f)
    case GridRule => !GridOk(m, f)
    case Guard => f.validWhen.Some? && !GuardOk(m, f.validWhen.value)
    case _ => false
  }

  function CheckOf(r: Rule): Option<Check> {
    match r
    case Names => Some(FeatureCheck)
    case Width => Some(FeatureCheck)
    case WidthMismatch => Some(FeatureCheck)
    case DiscretizeRule => Some(DiscretizeCheck)
    case BitflagsDiscretize => Some(BitflagsCheck)
    case GridRule => Some(GridCheck)
    case Guard => Some(GuardCheck)
    case _ => None
  }

  lemma RulesOne(rule: Rule, root: Root, path: seq<Step>)
    ensures Rules([Finding(rule, root, path)]) == {rule}
  {
    RulesWhen(true, rule, root, path);
  }

  lemma PlacementRules(m: FeatureMap, i: nat)
    requires i < |m.features|
    ensures var f := m.features[i];
            Rules(PlacementFindings(m, i))
            == if !Declared(m, f) then {Names}
               else if f.kind.Bytes? && f.width.None? then {Width}
               else if ResolvedWidth(f).None? then {WidthMismatch}
               else if !InBounds(m, f) then {Names} else {}
  {
    hide Rules;
    var f := m.features[i];
    RulesOne(Names, InFeature(i), []);
    RulesOne(Width, InFeature(i), []);
    RulesOne(WidthMismatch, InFeature(i), []);
    if Declared(m, f) && ResolvedWidth(f).Some? { RulesWhen(!InBounds(m, f), Names, InFeature(i), []); }
  }

  lemma FeatureRules(m: FeatureMap, i: nat, r: Rule)
    requires i < |m.features|
    ensures r in Rules(FeatureFindings(m, i)) <==> CheckOf(r) == Some(FeatureCheck) && FeatureBreaks(r, m, i)
  {
    hide Rules, When, PlacementFindings, ValidName, FirstIndex;
    var f := m.features[i];
    var bad := When(!ValidName(f.name), Names, InFeature(i), []);
    var again := When(f.name in FirstIndex(m.features, i), Names, InFeature(i), []);
    RulesAppend(bad + again, PlacementFindings(m, i));
    RulesAppend(bad, again);
    RulesWhen(!ValidName(f.name), Names, InFeature(i), []);
    RulesWhen(f.name in FirstIndex(m.features, i), Names, InFeature(i), []);
    FirstIndexNames(m.features, i, f.name);
    PlacementRules(m, i);
  }

  lemma AxisRules(m: FeatureMap, i: nat, name: string)
    requires i < |m.features|
    ensures Rules(AxisFindings(m, i, name)) == if AxisOk(m, m.features[i], name) then {} else {GridRule}
  {
    hide Rules, When;
    var index := FirstIndex(m.features, |m.features|);
    RulesOne(GridRule, InFeature(i), []);
    if name in index {
      var bad := !IntegerScalar(index[name].kind);
      var twice := index[name].name != m.features[i].name && !NoDiscretize(index[name].discretize);
      RulesAppend(When(bad, GridRule, InFeature(i), []), When(twice, GridRule, InFeature(i), []));
      RulesWhen(bad, GridRule, InFeature(i), []);
      RulesWhen(twice, GridRule, InFeature(i), []);
    }
  }

  lemma GridRules(m: FeatureMap, i: nat)
    requires i < |m.features|
    ensures Rules(GridFindings(m, i)) == if GridOk(m, m.features[i]) then {} else {GridRule}
  {
    hide Rules, When, AxisFindings, AxisOk, FirstIndex;
    var d := m.features[i].discretize;
    if d.Some? && d.value.Grid? {
      var w, h := When(d.value.cellW < 1, GridRule, InFeature(i), []),
        When(d.value.cellH < 1, GridRule, InFeature(i), []);
      var x, y, room := AxisFindings(m, i, d.value.x), AxisFindings(m, i, d.value.y), RoomFindings(m, i, d.value.room);
      RulesAppend(w + h + x + y, room);
      RulesAppend(w + h + x, y);
      RulesAppend(w + h, x);
      RulesAppend(w, h);
      RulesWhen(d.value.cellW < 1, GridRule, InFeature(i), []);
      RulesWhen(d.value.cellH < 1, GridRule, InFeature(i), []);
      AxisRules(m, i, d.value.x);
      AxisRules(m, i, d.value.y);
      RulesWhen(!GuardOk(m, d.value.room), GridRule, InFeature(i), []);
    } else {
      assert Rules([]) == {} by { RulesEmpty(); }
    }
  }

  lemma RulesEmpty()
    ensures Rules([]) == {}
  {
  }

  lemma CheckRules(c: Check, m: FeatureMap, i: nat, r: Rule)
    requires i < |m.features|
    ensures r in Rules(CheckOne(c, m, i)) <==> CheckOf(r) == Some(c) && FeatureBreaks(r, m, i)
  {
    hide Rules, When, FeatureFindings, GridFindings, GuardOk, DiscretizeOk, BitflagsOk, GridOk;
    var f := m.features[i];
    match c {
      case FeatureCheck => FeatureRules(m, i, r);
      case DiscretizeCheck => RulesWhen(!DiscretizeOk(f.discretize), DiscretizeRule, InFeature(i), []);
      case BitflagsCheck => RulesWhen(!BitflagsOk(f), BitflagsDiscretize, InFeature(i), []);
      case GridCheck => GridRules(m, i);
      case GuardCheck => RulesWhen(f.validWhen.Some? && !GuardOk(m, f.validWhen.value), Guard, InFeature(i), []);
    }
  }

  ghost predicate SomeFeatureBreaks(r: Rule, m: FeatureMap) {
    exists i: nat :: i < |m.features| && FeatureBreaks(r, m, i)
  }

  lemma PassRules(c: Check, m: FeatureMap, r: Rule)
    ensures r in Rules(Pass(c, m)) <==> CheckOf(r) == Some(c) && SomeFeatureBreaks(r, m)
  {
    hide Rules, CheckOne, FeatureBreaks, CheckOf;
    RulesCollect(Checking(c, m), |m.features|, r);
    forall i: nat | i < |m.features|
      ensures r in Rules(Checking(c, m)(i)) <==> CheckOf(r) == Some(c) && FeatureBreaks(r, m, i) {
      CheckRules(c, m, i, r);
    }
  }

  lemma MapRules(m: FeatureMap, r: Rule)
    ensures r in Rules(MapFindings(m)) <==> SomeFeatureBreaks(r, m) || (r == MapName && !ValidMapName(m.name))
  {
    hide Rules, When, Pass, ValidMapName;
    var named := When(!ValidMapName(m.name), MapName, InMeta, []);
    var a, b := Pass(FeatureCheck, m), Pass(DiscretizeCheck, m);
    var d, g, v := Pass(BitflagsCheck, m), Pass(GridCheck, m), Pass(GuardCheck, m);
    RulesAppend(a + b + named + d + g, v);
    RulesAppend(a + b + named + d, g);
    RulesAppend(a + b + named, d);
    RulesAppend(a + b, named);
    RulesAppend(a, b);
    RulesWhen(!ValidMapName(m.name), MapName, InMeta, []);
    PassRules(FeatureCheck, m, r);
    PassRules(DiscretizeCheck, m, r);
    PassRules(BitflagsCheck, m, r);
    PassRules(GridCheck, m, r);
    PassRules(GuardCheck, m, r);
  }

  // ---- Rules about predicates ----

  /** A leaf anywhere in a predicate, at any depth. */
  predicate Occurs(l: Leaf, p: Pred)
    decreases p
  {
    match p
    case LeafPred(k) => k == l
    case Not(q) => Occurs(l, q)
    case All(ps) => exists i :: 0 <= i < |ps| && Occurs(l, ps[i])
    case Any(ps) => exists i :: 0 <= i < |ps| && Occurs(l, ps[i])
  }

  predicate LeafBreaks(r: Rule, l: Leaf, index: Option<map<string, Feature>>) {
    if index.None? then r == BitWidth && l.BitTest? && l.bit > 31
    else if l.feature !in index.value then r == FeatureExists
    else
      var f := index.value[l.feature];
      || (r == StableOnly && !f.stable)
      || (r == NotBytes && f.kind.Bytes?)
      || (r == BitTarget && l.BitTest? && !Bitflags(f.kind))
      || (r == BitWidth && l.BitTest? && Bitflags(f.kind) && l.bit > MaxBit(f.kind).value)
  }

  lemma FourRules(b1: bool, b2: bool, b3: bool, b4: bool, root: Root, path: seq<Step>)
    ensures Rules(When(b1, StableOnly, root, path) + When(b2, NotBytes, root, path) + When(b3, BitTarget, root, path)
                  + When(b4, BitWidth, root, path))
            == (if b1 then {StableOnly} else {}) + (if b2 then {NotBytes} else {}) + (if b3 then {BitTarget} else {})
             + (if b4 then {BitWidth} else {})
  {
    hide Rules, When;
    var a, b, c := When(b1, StableOnly, root, path), When(b2, NotBytes, root, path), When(b3, BitTarget, root, path);
    RulesAppend(a + b + c, When(b4, BitWidth, root, path));
    RulesAppend(a + b, c);
    RulesAppend(a, b);
    RulesWhen(b1, StableOnly, root, path);
    RulesWhen(b2, NotBytes, root, path);
    RulesWhen(b3, BitTarget, root, path);
    RulesWhen(b4, BitWidth, root, path);
  }

  lemma CrossRules(l: Leaf, index: map<string, Feature>, root: Root, path: seq<Step>)
    requires l.feature in index
    ensures var f := index[l.feature];
            Rules(LeafCross(l, index, root, path))
            == (if !f.stable then {StableOnly} else {}) + (if f.kind.Bytes? then {NotBytes} else {})
             + (if l.BitTest? && !Bitflags(f.kind) then {BitTarget} else {})
             + (if l.BitTest? && Bitflags(f.kind) && l.bit > MaxBit(f.kind).value then {BitWidth} else {})
  {
    hide Rules, When;
    var f := index[l.feature];
    FourRules(!f.stable, f.kind.Bytes?, l.BitTest? && !Bitflags(f.kind),
              l.BitTest? && Bitflags(f.kind) && l.bit > MaxBit(f.kind).value, root, path);
  }

  lemma LeafRules(l: Leaf, index: Option<map<string, Feature>>, root: Root, path: seq<Step>, r: Rule)
    ensures r in Rules(LeafFindings(l, index, root, path)) <==> LeafBreaks(r, l, index)
  {
    hide Rules, When;
    RulesOne(FeatureExists, root, path);
    if index.None? {
      RulesWhen(l.BitTest? && l.bit > 31, BitWidth, root, path);
    } else if l.feature in index.value {
      hide LeafCross;
      CrossRules(l, index.value, root, path);
    }
  }

  ghost predicate PredBreaks(r: Rule, p: Pred, index: Option<map<string, Feature>>) {
    exists l :: Occurs(l, p) && LeafBreaks(r, l, index)
  }

  ghost predicate ListBreaks(r: Rule, ps: seq<Pred>, index: Option<map<string, Feature>>) {
    exists i :: 0 <= i < |ps| && PredBreaks(r, ps[i], index)
  }

  lemma {:induction false} PredRules(p: Pred, index: Option<map<string, Feature>>, root: Root, path: seq<Step>, r: Rule)
    ensures r in Rules(PredFindings(p, index, root, path)) <==> PredBreaks(r, p, index)
    decreases p
  {
    hide Rules, LeafFindings, LeafBreaks;
    match p {
      case LeafPred(l) => LeafRules(l, index, root, path, r);
      case Not(q) =>
        PredRules(q, index, root, path + [NotAt], r);
        assert forall l :: Occurs(l, p) <==> Occurs(l, q);
      case All(ps) =>
        ListRules(ps, true, index, root, path, r);
        ListOccurs(r, p, ps, index);
      case Any(ps) =>
        ListRules(ps, false, index, root, path, r);
        ListOccurs(r, p, ps, index);
    }
  }

  lemma ListOccurs(r: Rule, p: Pred, ps: seq<Pred>, index: Option<map<string, Feature>>)
    requires p == All(ps) || p == Any(ps)
    ensures PredBreaks(r, p, index) <==> ListBreaks(r, ps, index)
  {
    hide PredBreaks, ListBreaks;
    if ListBreaks(r, ps, index) { ChildToParent(r, p, ps, index); }
    if PredBreaks(r, p, index) { ParentToChild(r, p, ps, index); }
  }

  lemma ChildToParent(r: Rule, p: Pred, ps: seq<Pred>, index: Option<map<string, Feature>>)
    requires (p == All(ps) || p == Any(ps)) && ListBreaks(r, ps, index)
    ensures PredBreaks(r, p, index)
  {
    hide LeafBreaks;
    var i :| 0 <= i < |ps| && PredBreaks(r, ps[i], index);
    var l :| Occurs(l, ps[i]) && LeafBreaks(r, l, index);
    assert Occurs(l, p);
  }

  lemma ParentToChild(r: Rule, p: Pred, ps: seq<Pred>, index: Option<map<string, Feature>>)
    requires (p == All(ps) || p == Any(ps)) && PredBreaks(r, p, index)
    ensures ListBreaks(r, ps, index)
  {
    hide LeafBreaks;
    var l :| Occurs(l, p) && LeafBreaks(r, l, index);
    var i :| 0 <= i < |ps| && Occurs(l, ps[i]);
    assert PredBreaks(r, ps[i], index);
  }

  lemma {:induction false} ListRules(ps: seq<Pred>, all: bool, index: Option<map<string, Feature>>,
                                     root: Root, path: seq<Step>, r: Rule)
    ensures r in Rules(ListFindings(ps, all, index, root, path)) <==> ListBreaks(r, ps, index)
    decreases ps
  {
    hide Rules, PredBreaks;
    if ps == [] {
      RulesEmpty();
    } else {
      var n := |ps| - 1;
      var step := [if all then AllAt(n) else AnyAt(n)];
      ListRules(ps[..n], all, index, root, path, r);
      PredRules(ps[n], index, root, path + step, r);
      RulesAppend(ListFindings(ps[..n], all, index, root, path), PredFindings(ps[n], index, root, path + step));
      ListSplits(r, ps, index);
    }
  }

  lemma ListSplits(r: Rule, ps: seq<Pred>, index: Option<map<string, Feature>>)
    requires ps != []
    ensures ListBreaks(r, ps, index) <==> ListBreaks(r, ps[..|ps| - 1], index) || PredBreaks(r, ps[|ps| - 1], index)
  {
    hide PredBreaks;
    var head := ps[..|ps| - 1];
    if ListBreaks(r, head, index) {
      var i :| 0 <= i < |head| && PredBreaks(r, head[i], index);
      assert head[i] == ps[i];
    }
    if ListBreaks(r, ps, index) {
      var i :| 0 <= i < |ps| && PredBreaks(r, ps[i], index);
      if i < |head| { assert head[i] == ps[i]; }
    }
  }

  // ---- Rules about a program ----

  /** Some leaf of some predicate of the program breaks the rule. */
  ghost predicate ProgramBreaks(r: Rule, sp: Program, index: Option<map<string, Feature>>) {
    || (exists i: nat :: i < |sp.stages| && PredBreaks(r, sp.stages[i].when, index))
    || (exists i: nat :: i < |sp.penalties| && PredBreaks(r, sp.penalties[i], index))
    || PredBreaks(r, sp.goal, index)
  }

  lemma ProgramRules(sp: Program, index: Option<map<string, Feature>>, r: Rule)
    ensures r in Rules(ProgramPreds(sp, index)) <==> ProgramBreaks(r, sp, index)
  {
    hide Rules, PredFindings, PredBreaks;
    var s, p := Collect(StagePred(sp, index), |sp.stages|), Collect(PenaltyPred(sp, index), |sp.penalties|);
    var g := PredFindings(sp.goal, index, InGoal, []);
    RulesAppend(s + p, g);
    RulesAppend(s, p);
    RulesCollect(StagePred(sp, index), |sp.stages|, r);
    RulesCollect(PenaltyPred(sp, index), |sp.penalties|, r);
    forall i: nat | i < |sp.stages|
      ensures r in Rules(StagePred(sp, index)(i)) <==> PredBreaks(r, sp.stages[i].when, index)
    {
      PredRules(sp.stages[i].when, index, InStage(i), [], r);
    }
    forall i: nat | i < |sp.penalties|
      ensures r in Rules(PenaltyPred(sp, index)(i)) <==> PredBreaks(r, sp.penalties[i], index)
    {
      PredRules(sp.penalties[i], index, InPenalty(i), [], r);
    }
    PredRules(sp.goal, index, InGoal, [], r);
  }

  predicate NegativePoints(sp: Program) { exists i: nat :: i < |sp.stages| && sp.stages[i].points < 0 }

  lemma PointsRules(sp: Program, r: Rule)
    ensures r in Rules(Collect(StagePoints(sp), |sp.stages|)) <==> r == Points && NegativePoints(sp)
  {
    hide Rules, When;
    RulesCollect(StagePoints(sp), |sp.stages|, r);
    forall i: nat | i < |sp.stages| ensures r in Rules(StagePoints(sp)(i)) <==> r == Points && sp.stages[i].points < 0 {
      RulesWhen(sp.stages[i].points < 0, Points, InStage(i), []);
    }
  }

  predicate RequiresOk(sp: Program, i: nat)
    requires i < |sp.stages|
  {
    sp.stages[i].requires_.Some? ==>
      var reqs := sp.stages[i].requires_.value;
      |reqs| <= 8 && forall k :: 0 <= k < |reqs| ==> EarlierStage(sp, i, reqs[k])
  }

  lemma {:induction false} MissingRules(sp: Program, i: nat, reqs: seq<string>, r: Rule)
    requires i <= |sp.stages|
    ensures r in Rules(MissingRequires(sp, i, reqs)) <==>
            r == Requires && exists k :: 0 <= k < |reqs| && !EarlierStage(sp, i, reqs[k])
    decreases reqs
  {
    hide Rules, When, EarlierStage;
    if reqs == [] {
      RulesEmpty();
    } else {
      var n := |reqs| - 1;
      var head := reqs[..n];
      MissingRules(sp, i, head, r);
      RulesAppend(MissingRequires(sp, i, head), When(!EarlierStage(sp, i, reqs[n]), Requires, InStage(i), []));
      RulesWhen(!EarlierStage(sp, i, reqs[n]), Requires, InStage(i), []);
      assert forall k :: 0 <= k < n ==> head[k] == reqs[k];
    }
  }

  lemma StageRequiresRules(sp: Program, i: nat, r: Rule)
    requires i < |sp.stages|
    ensures r in Rules(StageRequires(sp)(i)) <==> r == Requires && !RequiresOk(sp, i)
  {
    hide Rules, When, EarlierStage;
    var q := sp.stages[i].requires_;
    if q.None? {
      RulesEmpty();
    } else {
      RulesAppend(When(|q.value| > 8, Requires, InStage(i), []), MissingRequires(sp, i, q.value));
      RulesWhen(|q.value| > 8, Requires, InStage(i), []);
      MissingRules(sp, i, q.value, r);
    }
  }

  predicate SomeRequiresBad(sp: Program) { exists i: nat :: i < |sp.stages| && !RequiresOk(sp, i) }

  lemma RequiresRules(sp: Program, r: Rule)
    ensures r in Rules(Collect(StageRequires(sp), |sp.stages|)) <==> r == Requires && SomeRequiresBad(sp)
  {
    hide Rules, RequiresOk, StageRequires;
    RulesCollect(StageRequires(sp), |sp.stages|, r);
    forall i: nat | i < |sp.stages| ensures r in Rules(StageRequires(sp)(i)) <==> r == Requires && !RequiresOk(sp, i) {
      StageRequiresRules(sp, i, r);
    }
  }

  predicate ShapingBreaks(r: Rule, s: Shaping, index: map<string, Feature>) {
    if s.feature !in index then r == FeatureExists
    else
      var f := index[s.feature];
      || (r == StableOnly && !f.stable)
      || (r == NotBytes && f.kind.Bytes?)
      || (r == BitTarget && s.popcount && !Bitflags(f.kind))
  }

  lemma ShapingOneRules(sp: Program, index: map<string, Feature>, i: nat, r: Rule)
    requires i < |sp.shaping|
    ensures r in Rules(ShapingOne(sp, index)(i)) <==> ShapingBreaks(r, sp.shaping[i], index)
  {
    hide Rules, When;
    var s, root := sp.shaping[i], InShaping(i);
    RulesOne(FeatureExists, root, []);
    if s.feature in index {
      var f := index[s.feature];
      var a, b := When(!f.stable, StableOnly, root, []), When(f.kind.Bytes?, NotBytes, root, []);
      RulesAppend(a + b, When(s.popcount && !Bitflags(f.kind), BitTarget, root, []));
      RulesAppend(a, b);
      RulesWhen(!f.stable, StableOnly, root, []);
      RulesWhen(f.kind.Bytes?, NotBytes, root, []);
      RulesWhen(s.popcount && !Bitflags(f.kind), BitTarget, root, []);
    }
  }

  predicate SomeShapingBreaks(r: Rule, sp: Program, index: map<string, Feature>) {
    exists i: nat :: i < |sp.shaping| && ShapingBreaks(r, sp.shaping[i], index)
  }

  lemma ShapingRules(sp: Program, index: map<string, Feature>, r: Rule)
    ensures r in Rules(Collect(ShapingOne(sp, index), |sp.shaping|)) <==> SomeShapingBreaks(r, sp, index)
  {
    hide Rules, ShapingOne, ShapingBreaks;
    RulesCollect(ShapingOne(sp, index), |sp.shaping|, r);
    forall i: nat | i < |sp.shaping|
      ensures r in Rules(ShapingOne(sp, index)(i)) <==> ShapingBreaks(r, sp.shaping[i], index)
    {
      ShapingOneRules(sp, index, i, r);
    }
  }

  // ---- A rule is reported exactly when it is broken ----

  ghost predicate Broken(r: Rule, m: FeatureMap, sp: Program) {
    var index := LastIndex(m.features, |m.features|);
    match r
    case MapName => !ValidMapName(m.name)
    case Monotone => !sp.monotone
    case Points => NegativePoints(sp)
    case MapRef => sp.featureMap != m.name
    case Requires => SomeRequiresBad(sp)
    case FeatureExists => ProgramBreaks(r, sp, Some(index)) || SomeShapingBreaks(r, sp, index)
    case StableOnly => ProgramBreaks(r, sp, Some(index)) || SomeShapingBreaks(r, sp, index)
    case NotBytes => ProgramBreaks(r, sp, Some(index)) || SomeShapingBreaks(r, sp, index)
    case BitTarget => ProgramBreaks(r, sp, Some(index)) || SomeShapingBreaks(r, sp, index)
    case BitWidth => ProgramBreaks(r, sp, None) || ProgramBreaks(r, sp, Some(index))
    case _ => SomeFeatureBreaks(r, m)
  }

  lemma AloneRules(sp: Program, r: Rule)
    ensures r in Rules(AloneFindings(sp))
            <==> (r == Monotone && !sp.monotone) || (r == Points && NegativePoints(sp)) || ProgramBreaks(r, sp, None)
  {
    hide Rules, When, ProgramPreds, ProgramBreaks, Collect, NegativePoints;
    var a, b := When(!sp.monotone, Monotone, InMeta, []), Collect(StagePoints(sp), |sp.stages|);
    RulesAppend(a + b, ProgramPreds(sp, None));
    RulesAppend(a, b);
    RulesWhen(!sp.monotone, Monotone, InMeta, []);
    PointsRules(sp, r);
    ProgramRules(sp, None, r);
  }

  /** The leaf occurs in a stage, a penalty or the goal, at any nesting depth. */
  predicate InProgram(l: Leaf, sp: Program) {
    || (exists i: nat :: i < |sp.stages| && Occurs(l, sp.stages[i].when))
    || (exists i: nat :: i < |sp.penalties| && Occurs(l, sp.penalties[i]))
    || Occurs(l, sp.goal)
  }

  lemma LeafOfProgram(r: Rule, sp: Program, index: Option<map<string, Feature>>) returns (l: Leaf)
    requires ProgramBreaks(r, sp, index)
    ensures InProgram(l, sp) && LeafBreaks(r, l, index)
  {
    hide LeafBreaks, Occurs;
    if PredBreaks(r, sp.goal, index) {
      l :| Occurs(l, sp.goal) && LeafBreaks(r, l, index);
    } else if i: nat :| i < |sp.stages| && PredBreaks(r, sp.stages[i].when, index) {
      l :| Occurs(l, sp.stages[i].when) && LeafBreaks(r, l, index);
    } else {
      var i: nat :| i < |sp.penalties| && PredBreaks(r, sp.penalties[i], index);
      l :| Occurs(l, sp.penalties[i]) && LeafBreaks(r, l, index);
    }
  }

  /** Which passes can report which rules. */
  lemma LeafRulesOnly(r: Rule, sp: Program, m: FeatureMap)
    ensures ProgramBreaks(r, sp, None) ==> r == BitWidth
    ensures var index := LastIndex(m.features, |m.features|);
            && (ProgramBreaks(r, sp, Some(index)) ==>
               r.FeatureExists? || r.StableOnly? || r.NotBytes? || r.BitTarget? || r.BitWidth?)
            && (SomeShapingBreaks(r, sp, index) ==> r.FeatureExists? || r.StableOnly? || r.NotBytes? || r.BitTarget?)
    ensures SomeFeatureBreaks(r, m) ==> CheckOf(r).Some?
  {
    hide ProgramBreaks, LastIndex, Bitflags, MaxBit;
    var index := LastIndex(m.features, |m.features|);
    if ProgramBreaks(r, sp, None) { var l := LeafOfProgram(r, sp, None); }
    if ProgramBreaks(r, sp, Some(index)) { var l := LeafOfProgram(r, sp, Some(index)); }
  }

  /** Each rule is reported for a pair of documents if and only if the pair breaks it. */
  lemma ReportedExactly(m: FeatureMap, sp: Program, r: Rule)
    ensures r in Rules(PairFindings(m, sp)) <==> Broken(r, m, sp)
  {
    hide Rules, When, MapFindings, AloneFindings, ProgramPreds, Collect, LastIndex, ProgramBreaks, SomeFeatureBreaks;
    hide SomeShapingBreaks, SomeRequiresBad, NegativePoints, ValidMapName;
    var index := LastIndex(m.features, |m.features|);
    var a, b, c := MapFindings(m), AloneFindings(sp), When(sp.featureMap != m.name, MapRef, InMeta, []);
    var d, e, f := Collect(StageRequires(sp), |sp.stages|), ProgramPreds(sp, Some(index)),
      Collect(ShapingOne(sp, index), |sp.shaping|);
    RulesAppend(a + b + c + d + e, f);
    RulesAppend(a + b + c + d, e);
    RulesAppend(a + b + c, d);
    RulesAppend(a + b, c);
    RulesAppend(a, b);
    MapRules(m, r);
    AloneRules(sp, r);
    RulesWhen(sp.featureMap != m.name, MapRef, InMeta, []);
    RequiresRules(sp, r);
    ProgramRules(sp, Some(index), r);
    ShapingRules(sp, index, r);
    LeafRulesOnly(r, sp, m);
  }
}
