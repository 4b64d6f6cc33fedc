/** Where a predicate finding points: following its path leads to a leaf that breaks its rule. */
module Paths {
  import opened Timing
  import opened Documents
  import opened Findings
  import opened Exact

  function Follow(p: Pred, path: seq<Step>): Option<Leaf>
    decreases p
  {
    match p
    case LeafPred(l) => if path == [] then Some(l) else None
    case Not(q) => if path != [] && path[0].NotAt? then Follow(q, path[1..]) else None
    case All(ps) => if path != [] && path[0].AllAt? && path[0].i < |ps| then Follow(ps[path[0].i], path[1..]) else None
    case Any(ps) => if path != [] && path[0].AnyAt? && path[0].i < |ps| then Follow(ps[path[0].i], path[1..]) else None
  }

  predicate PointsAt(f: Finding, p: Pred, index: Option<map<string, Feature>>, root: Root, path: seq<Step>) {
    && f.root == root && path <= f.path
    && Follow(p, f.path[|path|..]).Some? && LeafBreaks(f.rule, Follow(p, f.path[|path|..]).value, index)
  }

  lemma {:induction false} RuleOf(f: Finding, s: seq<Finding>)
    requires f in s
    ensures f.rule in Rules(s)
    decreases s
  {
    var n := |s| - 1;
    if f in s[..n] {
      RuleOf(f, s[..n]);
    } else {
      assert s[n] == f;
    }
  }

  lemma PlaceOf(b1: bool, b2: bool, b3: bool, b4: bool, root: Root, path: seq<Step>, f: Finding)
    requires f in When(b1, StableOnly, root, path) + When(b2, NotBytes, root, path) + When(b3, BitTarget, root, path)
                  + When(b4, BitWidth, root, path)
    ensures f.root == root && f.path == path
  {
  }

  lemma LeafPoints(l: Leaf, index: Option<map<string, Feature>>, root: Root, path: seq<Step>, f: Finding)
    requires f in LeafFindings(l, index, root, path)
    ensures f.root == root && f.path == path && LeafBreaks(f.rule, l, index)
  {
    hide LeafBreaks, Rules;
    RuleOf(f, LeafFindings(l, index, root, path));
    LeafRules(l, index, root, path, f.rule);
    if index.Some? && l.feature in index.value {
      var g := index.value[l.feature];
      PlaceOf(!g.stable, g.kind.Bytes?, l.BitTest? && !Bitflags(g.kind),
              l.BitTest? && Bitflags(g.kind) && l.bit > MaxBit(g.kind).value, root, path, f);
    }
  }

  /** Taking one step more and following the rest. */
  lemma StepPoints(f: Finding, p: Pred, q: Pred, index: Option<map<string, Feature>>, root: Root, path: seq<Step>,
      step: Step)
    requires PointsAt(f, q, index, root, path + [step])
    requires match p
             case Not(n) => step.NotAt? && n == q
             case All(ps) => step.AllAt? && step.i < |ps| && ps[step.i] == q
             case Any(ps) => step.AnyAt? && step.i < |ps| && ps[step.i] == q
             case LeafPred(_) => false
    ensures PointsAt(f, p, index, root, path)
  {
    hide LeafBreaks;
    var rest := f.path[|path|..];
    assert rest[0] == (path + [step])[|path|] == step;
    assert rest[1..] == f.path[|path + [step]|..];
  }

  lemma {:induction false} FindingPoints(p: Pred, index: Option<map<string, Feature>>, root: Root, path: seq<Step>,
      f: Finding)
    requires f in PredFindings(p, index, root, path)
    ensures PointsAt(f, p, index, root, path)
    decreases p
  {
    hide LeafFindings, LeafBreaks, PointsAt, Follow;
    match p {
      case LeafPred(l) =>
        LeafPoints(l, index, root, path, f);
        LeafAtEnd(p, l, index, root, path, f);
      case Not(q) =>
        FindingPoints(q, index, root, path + [NotAt], f);
        StepPoints(f, p, q, index, root, path, NotAt);
      case All(ps) =>
        var i := ListPoints(ps, true, index, root, path, f);
        StepPoints(f, p, ps[i], index, root, path, AllAt(i));
      case Any(ps) =>
        var i := ListPoints(ps, false, index, root, path, f);
        StepPoints(f, p, ps[i], index, root, path, AnyAt(i));
    }
  }

  lemma LeafAtEnd(p: Pred, l: Leaf, index: Option<map<string, Feature>>, root: Root, path: seq<Step>, f: Finding)
    requires p == LeafPred(l) && f.root == root && f.path == path && LeafBreaks(f.rule, l, index)
    ensures PointsAt(f, p, index, root, path)
  {
    hide LeafBreaks;
    assert f.path[|path|..] == [];
  }

  lemma {:induction false} ListPoints(ps: seq<Pred>, all: bool, index: Option<map<string, Feature>>,
                                      root: Root, path: seq<Step>, f: Finding)
    returns (i: nat)
    requires f in ListFindings(ps, all, index, root, path)
    ensures i < |ps| && PointsAt(f, ps[i], index, root, path + [if all then AllAt(i) else AnyAt(i)])
    decreases ps
  {
    hide LeafFindings, LeafBreaks, PointsAt;
    var n := |ps| - 1;
    if f in ListFindings(ps[..n], all, index, root, path) {
      i := ListPoints(ps[..n], all, index, root, path, f);
    } else {
      i := n;
      FindingPoints(ps[n], index, root, path + [if all then AllAt(n) else AnyAt(n)], f);
    }
  }
}
