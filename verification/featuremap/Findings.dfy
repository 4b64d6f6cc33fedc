/** What the validator reports, item by item, and the declarative rule behind each report. */
module Findings {
  import opened Timing
  import opened Documents

  datatype Rule =
    | Names | Width | WidthMismatch | BitflagsDiscretize | GridRule | Guard
    | DiscretizeRule | MapName
    | Monotone | Points | StableOnly | NotBytes
    | FeatureExists | BitTarget | BitWidth | MapRef | Requires

  datatype Step = AllAt(i: nat) | AnyAt(i: nat) | NotAt
  datatype Root = InFeature(i: nat) | InStage(i: nat) | InPenalty(i: nat) | InGoal | InShaping(i: nat) | InMeta
  datatype Finding = Finding(rule: Rule, root: Root, path: seq<Step>)

  function When(broken: bool, rule: Rule, root: Root, path: seq<Step>): seq<Finding> {
    if broken then [Finding(rule, root, path)] else []
  }

  function Collect(f: nat -> seq<Finding>, n: nat): seq<Finding> {
    if n == 0 then [] else Collect(f, n - 1) + f(n - 1)
  }

  /** The rules some finding names. */
  function Rules(s: seq<Finding>): set<Rule>
    decreases s
  {
    if s == [] then {} else Rules(s[..|s| - 1]) + {s[|s| - 1].rule}
  }

  lemma {:induction false} RulesAppend(a: seq<Finding>, b: seq<Finding>)
    ensures Rules(a + b) == Rules(a) + Rules(b)
    decreases b
  {
    if b == [] {
      assert a + b == a;
    } else {
      assert (a + b)[..|a + b| - 1] == a + b[..|b| - 1];
      RulesAppend(a, b[..|b| - 1]);
    }
  }

  lemma RulesWhen(broken: bool, rule: Rule, root: Root, path: seq<Step>)
    ensures Rules(When(broken, rule, root, path)) == if broken then {rule} else {}
  {
    if broken {
      var s := [Finding(rule, root, path)];
      assert s[..0] == [] && Rules(s) == Rules(s[..0]) + {rule};
    }
  }

  ghost predicate SomeItem(f: nat -> seq<Finding>, n: nat, r: Rule) { exists i: nat :: i < n && r in Rules(f(i)) }

  lemma {:induction false} RulesCollect(f: nat -> seq<Finding>, n: nat, r: Rule)
    ensures r in Rules(Collect(f, n)) <==> SomeItem(f, n, r)
    decreases n
  {
    hide Rules, SomeItem;
    if n == 0 {
      NoItem(f, r);
    } else {
      RulesCollect(f, n - 1, r);
      RulesAppend(Collect(f, n - 1), f(n - 1));
      LastItem(f, n - 1, r);
    }
  }

  lemma NoItem(f: nat -> seq<Finding>, r: Rule)
    ensures !SomeItem(f, 0, r) && r !in Rules([])
  {
  }

  lemma LastItem(f: nat -> seq<Finding>, n: nat, r: Rule)
    ensures SomeItem(f, n + 1, r) <==> SomeItem(f, n, r) || r in Rules(f(n))
  {
    hide Rules;
    if SomeItem(f, n + 1, r) {
      var i: nat :| i < n + 1 && r in Rules(f(i));
      assert i < n || i == n;
    }
  }

  lemma {:induction false} NoFindings(s: seq<Finding>)
    ensures s == [] <==> forall r :: r !in Rules(s)
    decreases s
  {
    if s != [] { assert s[|s| - 1].rule in Rules(s); }
  }

  // ---- Features ----

  /** Bounds are only checked for a declared region and a resolved width. */
  function PlacementFindings(m: FeatureMap, i: nat): seq<Finding>
    requires i < |m.features|
  {
    var f, sizes := m.features[i], RegionSizes(m.regions, |m.regions|);
    if f.region !in sizes then [Finding(Names, InFeature(i), [])]
    else if f.kind.Bytes? && f.width.None? then [Finding(Width, InFeature(i), [])]
    else if ResolvedWidth(f).None? then [Finding(WidthMismatch, InFeature(i), [])]
    else When(f.offset < 0 || f.offset + ResolvedWidth(f).value > sizes[f.region], Names, InFeature(i), [])
  }

  function FeatureFindings(m: FeatureMap, i: nat): seq<Finding>
    requires i < |m.features|
  {
    When(!ValidName(m.features[i].name), Names, InFeature(i), [])
    + When(m.features[i].name in FirstIndex(m.features, i), Names, InFeature(i), [])
    + PlacementFindings(m, i)
  }

  function DiscretizeFindings(m: FeatureMap, i: nat): seq<Finding>
    requires i < |m.features|
  {
    When(!DiscretizeOk(m.features[i].discretize), DiscretizeRule, InFeature(i), [])
  }

  predicate BitflagsOk(f: Feature) {
    Bitflags(f.kind) ==> f.discretize.None? || f.discretize.value.Bits? || f.discretize.value.Undiscretized?
  }

  function BitflagsFindings(m: FeatureMap, i: nat): seq<Finding>
    requires i < |m.features|
  {
    When(!BitflagsOk(m.features[i]), BitflagsDiscretize, InFeature(i), [])
  }

  function AxisFindings(m: FeatureMap, i: nat, name: string): seq<Finding>
    requires i < |m.features|
  {
    var index := FirstIndex(m.features, |m.features|);
    if name !in index then [Finding(GridRule, InFeature(i), [])]
    else
      When(!IntegerScalar(index[name].kind), GridRule, InFeature(i), [])
      + When(index[name].name != m.features[i].name && !NoDiscretize(index[name].discretize),
             GridRule, InFeature(i), [])
  }

  function RoomFindings(m: FeatureMap, i: nat, name: string): seq<Finding>
    requires i < |m.features|
  {
    var index := FirstIndex(m.features, |m.features|);
    When(name !in index || !index[name].stable, GridRule, InFeature(i), [])
  }

  function GridFindings(m: FeatureMap, i: nat): seq<Finding>
    requires i < |m.features|
  {
    var d := m.features[i].discretize;
    if d.None? || !d.value.Grid? then []
    else
      When(d.value.cellW < 1, GridRule, InFeature(i), []) + When(d.value.cellH < 1, GridRule, InFeature(i), [])
      + AxisFindings(m, i, d.value.x) + AxisFindings(m, i, d.value.y) + RoomFindings(m, i, d.value.room)
  }

  predicate GuardOk(m: FeatureMap, name: string) {
    var index := FirstIndex(m.features, |m.features|);
    name in index && index[name].stable
  }

  function GuardFindings(m: FeatureMap, i: nat): seq<Finding>
    requires i < |m.features|
  {
    var g := m.features[i].validWhen;
    When(g.Some? && !GuardOk(m, g.value), Guard, InFeature(i), [])
  }

  /** One pass over the features, by index. */
  datatype Check = FeatureCheck | DiscretizeCheck | BitflagsCheck | GridCheck | GuardCheck

  function CheckOne(c: Check, m: FeatureMap, i: nat): seq<Finding> {
    if i >= |m.features| then []
    else
      match c
      case FeatureCheck => FeatureFindings(m, i)
      case DiscretizeCheck => DiscretizeFindings(m, i)
      case BitflagsCheck => BitflagsFindings(m, i)
      case GridCheck => GridFindings(m, i)
      case GuardCheck => GuardFindings(m, i)
  }

  function Checking(c: Check, m: FeatureMap): nat -> seq<Finding> { (i: nat) => CheckOne(c, m, i) }
  function Pass(c: Check, m: FeatureMap): seq<Finding> { Collect(Checking(c, m), |m.features|) }

  function MapFindings(m: FeatureMap): seq<Finding> {
    Pass(FeatureCheck, m) + Pass(DiscretizeCheck, m) + When(!ValidMapName(m.name), MapName, InMeta, [])
    + Pass(BitflagsCheck, m) + Pass(GridCheck, m) + Pass(GuardCheck, m)
  }

  // ---- Predicates ----

  /** Standing alone, a bit index is only held to 31. */
  function LeafAlone(l: Leaf, root: Root, path: seq<Step>): seq<Finding> {
    When(l.BitTest? && l.bit > 31, BitWidth, root, path)
  }

  function LeafCross(l: Leaf, index: map<string, Feature>, root: Root, path: seq<Step>): seq<Finding> {
    if l.feature !in index then [Finding(FeatureExists, root, path)]
    else
      var f := index[l.feature];
      When(!f.stable, StableOnly, root, path)
      + When(f.kind.Bytes?, NotBytes, root, path)
      + When(l.BitTest? && !Bitflags(f.kind), BitTarget, root, path)
      + When(l.BitTest? && Bitflags(f.kind) && l.bit > MaxBit(f.kind).value, BitWidth, root, path)
  }

  /** `index` is absent in the walk of a program on its own. */
  function LeafFindings(l: Leaf, index: Option<map<string, Feature>>, root: Root, path: seq<Step>): seq<Finding> {
    if index.None? then LeafAlone(l, root, path) else LeafCross(l, index.value, root, path)
  }

  function PredFindings(p: Pred, index: Option<map<string, Feature>>, root: Root, path: seq<Step>): seq<Finding>
    decreases p
  {
    match p
    case LeafPred(l) => LeafFindings(l, index, root, path)
    case Not(q) => PredFindings(q, index, root, path + [NotAt])
    case All(ps) => ListFindings(ps, true, index, root, path)
    case Any(ps) => ListFindings(ps, false, index, root, path)
  }

  function ListFindings(ps: seq<Pred>, all: bool, index: Option<map<string, Feature>>, root: Root,
      path: seq<Step>): seq<Finding>
    decreases ps
  {
    if ps == [] then []
    else
      var n := |ps| - 1;
      ListFindings(ps[..n], all, index, root, path)
      + PredFindings(ps[n], index, root, path + [if all then AllAt(n) else AnyAt(n)])
  }

  // ---- Programs ----

  function StagePred(sp: Program, index: Option<map<string, Feature>>): nat -> seq<Finding> {
    (i: nat) => if i < |sp.stages| then PredFindings(sp.stages[i].when, index, InStage(i), []) else []
  }

  function PenaltyPred(sp: Program, index: Option<map<string, Feature>>): nat -> seq<Finding> {
    (i: nat) => if i < |sp.penalties| then PredFindings(sp.penalties[i], index, InPenalty(i), []) else []
  }

  /** The same walk over every predicate of the program, alone or against the map. */
  function ProgramPreds(sp: Program, index: Option<map<string, Feature>>): seq<Finding> {
    Collect(StagePred(sp, index), |sp.stages|)
    + Collect(PenaltyPred(sp, index), |sp.penalties|)
    + PredFindings(sp.goal, index, InGoal, [])
  }

  function StagePoints(sp: Program): nat -> seq<Finding> {
    (i: nat) => When(i < |sp.stages| && sp.stages[i].points < 0, Points, InStage(i), [])
  }

  function AloneFindings(sp: Program): seq<Finding> {
    When(!sp.monotone, Monotone, InMeta, []) + Collect(StagePoints(sp), |sp.stages|) + ProgramPreds(sp, None)
  }

  predicate EarlierStage(sp: Program, i: nat, name: string)
    requires i <= |sp.stages|
  {
    exists j :: 0 <= j < i && sp.stages[j].name == name
  }

  function MissingRequires(sp: Program, i: nat, reqs: seq<string>): seq<Finding>
    requires i <= |sp.stages|
    decreases reqs
  {
    if reqs == [] then []
    else
      var n := |reqs| - 1;
      MissingRequires(sp, i, reqs[..n]) + When(!EarlierStage(sp, i, reqs[n]), Requires, InStage(i), [])
  }

  function StageRequires(sp: Program): nat -> seq<Finding> {
    (i: nat) =>
      if i >= |sp.stages| || sp.stages[i].requires_.None? then []
      else
        When(|sp.stages[i].requires_.value| > 8, Requires, InStage(i), [])
        + MissingRequires(sp, i, sp.stages[i].requires_.value)
  }

  function ShapingOne(sp: Program, index: map<string, Feature>): nat -> seq<Finding> {
    (i: nat) =>
      if i >= |sp.shaping| then []
      else if sp.shaping[i].feature !in index then [Finding(FeatureExists, InShaping(i), [])]
      else
        var f := index[sp.shaping[i].feature];
        When(!f.stable, StableOnly, InShaping(i), [])
        + When(f.kind.Bytes?, NotBytes, InShaping(i), [])
        + When(sp.shaping[i].popcount && !Bitflags(f.kind), BitTarget, InShaping(i), [])
  }

  function PairFindings(m: FeatureMap, sp: Program): seq<Finding> {
    var index := LastIndex(m.features, |m.features|);
    MapFindings(m) + AloneFindings(sp)
    + When(sp.featureMap != m.name, MapRef, InMeta, [])
    + Collect(StageRequires(sp), |sp.stages|)
    + ProgramPreds(sp, Some(index))
    + Collect(ShapingOne(sp, index), |sp.shaping|)
  }
}
