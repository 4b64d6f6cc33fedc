/** What an accepted pair of documents means, in terms of the documents alone. */
module Accepted {
  import opened Timing
  import opened Documents
  import opened Findings
  import opened Exact

  predicate DistinctNames(m: FeatureMap) {
    forall i, j :: 0 <= i < j < |m.features| ==> m.features[i].name != m.features[j].name
  }

  /** The feature's bytes lie within its region, the last one declared under that name. */
  predicate Placed(m: FeatureMap, f: Feature) {
    && ResolvedWidth(f).Some? && 0 <= f.offset
    && exists k: nat :: k < |m.regions| && LastNamed(m.regions, |m.regions|, k, f.region)
         && f.offset + ResolvedWidth(f).value <= m.regions[k].size
  }

  /** A guard or room names a stable feature. */
  predicate NamesStable(m: FeatureMap, name: string) {
    exists g :: g in m.features && g.name == name && g.stable
  }

  /** A grid axis names an integer feature without a discretisation of its own, unless it is the carrier. */
  predicate NamesAxis(m: FeatureMap, carrier: Feature, name: string) {
    exists g :: g in m.features && g.name == name && IntegerScalar(g.kind)
      && (name == carrier.name || NoDiscretize(g.discretize))
  }

  predicate GridAccepted(m: FeatureMap, f: Feature) {
    f.discretize.Some? && f.discretize.value.Grid? ==>
      var d := f.discretize.value;
      d.cellW >= 1 && d.cellH >= 1 && NamesAxis(m, f, d.x) && NamesAxis(m, f, d.y) && NamesStable(m, d.room)
  }

  predicate FeatureAccepted(m: FeatureMap, f: Feature) {
    && ValidName(f.name) && Placed(m, f)
    && DiscretizeOk(f.discretize) && BitflagsOk(f) && GridAccepted(m, f)
    && (f.validWhen.Some? ==> NamesStable(m, f.validWhen.value))
  }

  /** A leaf names a stable feature that is not raw bytes, and tests a bit that feature has. */
  predicate Answers(f: Feature, l: Leaf) {
    && f.name == l.feature && f.stable && !f.kind.Bytes?
    && (l.BitTest? ==> Bitflags(f.kind) && l.bit <= MaxBit(f.kind).value)
  }

  predicate LeafAccepted(m: FeatureMap, l: Leaf) { exists f :: f in m.features && Answers(f, l) }

  predicate ShapingAccepted(m: FeatureMap, s: Shaping) {
    exists f :: f in m.features && f.name == s.feature && f.stable && !f.kind.Bytes?
      && (s.popcount ==> Bitflags(f.kind))
  }

  ghost predicate LeavesAccepted(m: FeatureMap, sp: Program) { forall l :: InProgram(l, sp) ==> LeafAccepted(m, l) }

  predicate MapAccepted(m: FeatureMap) {
    DistinctNames(m) && ValidMapName(m.name) && forall i: nat :: i < |m.features| ==> FeatureAccepted(m, m.features[i])
  }

  ghost predicate ProgramAccepted(m: FeatureMap, sp: Program) {
    && sp.monotone && sp.featureMap == m.name
    && (forall i: nat :: i < |sp.stages| ==> sp.stages[i].points >= 0 && RequiresOk(sp, i))
    && LeavesAccepted(m, sp)
    && ShapingsAccepted(m, sp)
  }

  // ---- The map ----

  predicate MapRule(r: Rule) { CheckOf(r).Some? || r.MapName? }

  ghost predicate FeatureClean(m: FeatureMap, i: nat)
    requires i < |m.features|
  {
    forall r :: !FeatureBreaks(r, m, i)
  }

  /** The same in terms of the validator's look-ups. */
  predicate FeatureOk(m: FeatureMap, f: Feature) {
    && ValidName(f.name) && Declared(m, f) && ResolvedWidth(f).Some? && InBounds(m, f)
    && DiscretizeOk(f.discretize) && BitflagsOk(f) && GridOk(m, f)
    && (f.validWhen.Some? ==> GuardOk(m, f.validWhen.value))
  }

  lemma FeatureExactly(m: FeatureMap, i: nat)
    requires i < |m.features|
    ensures FeatureClean(m, i) <==> FeatureOk(m, m.features[i]) && !Repeats(m.features, i)
  {
    hide ValidName, DiscretizeOk, BitflagsOk, GridOk, GuardOk, Repeats, InBounds;
    if FeatureClean(m, i) {
      assert !FeatureBreaks(Names, m, i) && !FeatureBreaks(Width, m, i) && !FeatureBreaks(WidthMismatch, m, i);
      assert !FeatureBreaks(DiscretizeRule, m, i) && !FeatureBreaks(BitflagsDiscretize, m, i);
      assert !FeatureBreaks(GridRule, m, i) && !FeatureBreaks(Guard, m, i);
    }
  }

  lemma PlacedMeans(m: FeatureMap, f: Feature)
    requires ResolvedWidth(f).Some?
    ensures Placed(m, f) <==> Declared(m, f) && InBounds(m, f)
  {
    hide RegionSizes, LastNamed, ResolvedWidth;
    RegionSizesMeans(m.regions, |m.regions|, f.region);
  }

  /** With distinct names there is one feature of a name at most, and the index holds it. */
  lemma FirstFinds(m: FeatureMap, g: Feature)
    requires DistinctNames(m) && g in m.features
    ensures var index := FirstIndex(m.features, |m.features|); g.name in index && index[g.name] == g
  {
    DistinctMeans(m);
    IndexesAgree(m.features, |m.features|);
    IndexFinds(m, g);
  }

  lemma StableMeans(m: FeatureMap, name: string)
    requires DistinctNames(m)
    ensures NamesStable(m, name) <==> GuardOk(m, name)
  {
    hide FirstIndex, DistinctNames;
    FirstIndexNames(m.features, |m.features|, name);
    if NamesStable(m, name) {
      var g :| g in m.features && g.name == name && g.stable;
      FirstFinds(m, g);
    }
  }

  lemma AxisMeans(m: FeatureMap, f: Feature, name: string)
    requires DistinctNames(m)
    ensures NamesAxis(m, f, name) <==> AxisOk(m, f, name)
  {
    hide FirstIndex, DistinctNames, IntegerScalar, NoDiscretize;
    FirstIndexNames(m.features, |m.features|, name);
    if NamesAxis(m, f, name) {
      var g :| g in m.features && g.name == name && IntegerScalar(g.kind)
        && (name == f.name || NoDiscretize(g.discretize));
      FirstFinds(m, g);
    }
  }

  lemma FeatureMeans(m: FeatureMap, f: Feature)
    requires DistinctNames(m)
    ensures FeatureAccepted(m, f) <==> FeatureOk(m, f)
  {
    hide ValidName, DiscretizeOk, BitflagsOk, DistinctNames, Placed, InBounds, Declared;
    hide NamesAxis, NamesStable, AxisOk, GuardOk;
    if ResolvedWidth(f).Some? { PlacedMeans(m, f); }
    if Placed(m, f) { PlacedWidth(m, f); }
    if f.discretize.Some? && f.discretize.value.Grid? {
      AxisMeans(m, f, f.discretize.value.x);
      AxisMeans(m, f, f.discretize.value.y);
      StableMeans(m, f.discretize.value.room);
    }
    if f.validWhen.Some? { StableMeans(m, f.validWhen.value); }
  }

  lemma PlacedWidth(m: FeatureMap, f: Feature)
    requires Placed(m, f)
    ensures ResolvedWidth(f).Some?
  {
  }

  lemma DistinctMeans(m: FeatureMap)
    ensures DistinctNames(m) ==> forall i: nat :: i < |m.features| ==> !Repeats(m.features, i)
    ensures (forall i: nat :: i < |m.features| ==> !Repeats(m.features, i)) ==> DistinctNames(m)
  {
    if forall i: nat :: i < |m.features| ==> !Repeats(m.features, i) {
      forall i, j | 0 <= i < j < |m.features| ensures m.features[i].name != m.features[j].name {
        assert !Repeats(m.features, j);
      }
    }
  }

  ghost predicate NoMapRule(m: FeatureMap, sp: Program) { forall r :: MapRule(r) ==> !Broken(r, m, sp) }

  lemma CleanMapAccepted(m: FeatureMap, sp: Program)
    requires NoMapRule(m, sp)
    ensures MapAccepted(m)
  {
    hide FeatureAccepted, FeatureOk, ValidMapName, LastIndex, ProgramBreaks, SomeShapingBreaks, Repeats, DistinctNames;
    assert !Broken(MapName, m, sp);
    forall i: nat | i < |m.features| ensures FeatureOk(m, m.features[i]) && !Repeats(m.features, i) {
      forall r ensures !FeatureBreaks(r, m, i) {
        if FeatureBreaks(r, m, i) { BreakReported(r, m, sp, i); }
      }
      FeatureExactly(m, i);
    }
    DistinctMeans(m);
    forall i: nat | i < |m.features| ensures FeatureAccepted(m, m.features[i]) { FeatureMeans(m, m.features[i]); }
  }

  lemma BreakReported(r: Rule, m: FeatureMap, sp: Program, i: nat)
    requires i < |m.features| && FeatureBreaks(r, m, i)
    ensures MapRule(r) && Broken(r, m, sp)
  {
    assert SomeFeatureBreaks(r, m);
  }

  lemma BreakNotAccepted(r: Rule, m: FeatureMap, i: nat)
    requires i < |m.features| && FeatureBreaks(r, m, i)
    ensures !FeatureOk(m, m.features[i]) || Repeats(m.features, i)
  {
    hide FeatureOk, FeatureBreaks, Repeats;
    FeatureExactly(m, i);
  }

  lemma AcceptedMapClean(m: FeatureMap, sp: Program)
    requires MapAccepted(m)
    ensures NoMapRule(m, sp)
  {
    hide FeatureAccepted, FeatureOk, FeatureBreaks, ValidMapName, LastIndex, ProgramBreaks, SomeShapingBreaks, Repeats,
      DistinctNames;
    DistinctMeans(m);
    forall r | MapRule(r) ensures !Broken(r, m, sp) {
      if SomeFeatureBreaks(r, m) {
        var i: nat :| i < |m.features| && FeatureBreaks(r, m, i);
        FeatureMeans(m, m.features[i]);
        BreakNotAccepted(r, m, i);
      }
    }
  }

  // ---- Leaves ----

  /** With distinct names, the index finds exactly the features of the map. */
  lemma IndexFinds(m: FeatureMap, f: Feature)
    requires DistinctNames(m) && f in m.features
    ensures var index := LastIndex(m.features, |m.features|); f.name in index && index[f.name] == f
  {
    FirstIndexNames(m.features, |m.features|, f.name);
    var i :| 0 <= i < |m.features| && m.features[i] == f;
    assert f.name in LastIndex(m.features, |m.features|) by {
      assert exists j :: 0 <= j < |m.features| && m.features[j].name == f.name;
    }
  }

  ghost predicate LeafClean(l: Leaf, index: Option<map<string, Feature>>) { forall r :: !LeafBreaks(r, l, index) }

  /** A feature that answers the leaf breaks none of its rules, and its bits are all below 32. */
  lemma AnsweredClean(m: FeatureMap, l: Leaf, f: Feature)
    requires DistinctNames(m) && f in m.features && Answers(f, l)
    ensures LeafClean(l, Some(LastIndex(m.features, |m.features|))) && LeafClean(l, None)
  {
    hide LastIndex, DistinctNames;
    IndexFinds(m, f);
  }

  lemma CleanAnswered(m: FeatureMap, l: Leaf)
    requires LeafClean(l, Some(LastIndex(m.features, |m.features|)))
    ensures LeafAccepted(m, l)
  {
    hide LastIndex;
    var index := LastIndex(m.features, |m.features|);
    FirstIndexNames(m.features, |m.features|, l.feature);
    assert !LeafBreaks(FeatureExists, l, Some(index));
    assert !LeafBreaks(StableOnly, l, Some(index)) && !LeafBreaks(NotBytes, l, Some(index));
    assert !LeafBreaks(BitTarget, l, Some(index)) && !LeafBreaks(BitWidth, l, Some(index));
    assert Answers(index[l.feature], l);
  }

  /** A leaf clean against the map is clean on its own: every bitflags bit is below 32. */
  lemma LeafExactly(m: FeatureMap, l: Leaf)
    requires DistinctNames(m)
    ensures LeafAccepted(m, l) <==> LeafClean(l, Some(LastIndex(m.features, |m.features|)))
    ensures LeafAccepted(m, l) ==> LeafClean(l, None)
  {
    hide LastIndex, LeafClean, DistinctNames, Answers;
    if LeafAccepted(m, l) {
      var f :| f in m.features && Answers(f, l);
      AnsweredClean(m, l, f);
    }
    if LeafClean(l, Some(LastIndex(m.features, |m.features|))) { CleanAnswered(m, l); }
  }

  lemma LeafBreaksProgram(r: Rule, sp: Program, index: Option<map<string, Feature>>, l: Leaf)
    requires InProgram(l, sp) && LeafBreaks(r, l, index)
    ensures ProgramBreaks(r, sp, index)
  {
    hide LeafBreaks, Occurs;
    if i: nat :| i < |sp.stages| && Occurs(l, sp.stages[i].when) {
      assert PredBreaks(r, sp.stages[i].when, index);
    } else if i: nat :| i < |sp.penalties| && Occurs(l, sp.penalties[i]) {
      assert PredBreaks(r, sp.penalties[i], index);
    } else {
      assert PredBreaks(r, sp.goal, index);
    }
  }

  ghost predicate PredsClean(sp: Program, index: Option<map<string, Feature>>) {
    forall r :: !ProgramBreaks(r, sp, index)
  }

  lemma CleanLeavesAccepted(m: FeatureMap, sp: Program)
    requires DistinctNames(m) && PredsClean(sp, Some(LastIndex(m.features, |m.features|)))
    ensures LeavesAccepted(m, sp)
  {
    hide LeafBreaks, InProgram, LeafAccepted, LastIndex, ProgramBreaks;
    var index := Some(LastIndex(m.features, |m.features|));
    forall l | InProgram(l, sp) ensures LeafAccepted(m, l) {
      LeafExactly(m, l);
      forall r ensures !LeafBreaks(r, l, index) {
        if LeafBreaks(r, l, index) { LeafBreaksProgram(r, sp, index, l); }
      }
    }
  }

  lemma AcceptedLeavesClean(m: FeatureMap, sp: Program)
    requires DistinctNames(m) && LeavesAccepted(m, sp)
    ensures PredsClean(sp, None) && PredsClean(sp, Some(LastIndex(m.features, |m.features|)))
  {
    hide LeafBreaks, InProgram, LeafAccepted, LastIndex, ProgramBreaks;
    var index := Some(LastIndex(m.features, |m.features|));
    forall r ensures !ProgramBreaks(r, sp, index) && !ProgramBreaks(r, sp, None) {
      if ProgramBreaks(r, sp, index) {
        var l := LeafOfProgram(r, sp, index);
        LeafExactly(m, l);
      }
      if ProgramBreaks(r, sp, None) {
        var l := LeafOfProgram(r, sp, None);
        LeafExactly(m, l);
      }
    }
  }

  // ---- Shaping ----

  ghost predicate ShapingClean(s: Shaping, index: map<string, Feature>) { forall r :: !ShapingBreaks(r, s, index) }

  lemma ShapingExactly(m: FeatureMap, s: Shaping)
    requires DistinctNames(m)
    ensures ShapingAccepted(m, s) <==> ShapingClean(s, LastIndex(m.features, |m.features|))
  {
    hide LastIndex;
    var index := LastIndex(m.features, |m.features|);
    FirstIndexNames(m.features, |m.features|, s.feature);
    if ShapingAccepted(m, s) {
      var f :| f in m.features && f.name == s.feature && f.stable && !f.kind.Bytes?
        && (s.popcount ==> Bitflags(f.kind));
      IndexFinds(m, f);
    }
    if ShapingClean(s, index) {
      assert !ShapingBreaks(FeatureExists, s, index) && !ShapingBreaks(StableOnly, s, index);
      assert !ShapingBreaks(NotBytes, s, index) && !ShapingBreaks(BitTarget, s, index);
    }
  }

  ghost predicate ShapingsClean(sp: Program, index: map<string, Feature>) {
    forall r :: !SomeShapingBreaks(r, sp, index)
  }

  predicate ShapingsAccepted(m: FeatureMap, sp: Program) {
    forall i: nat :: i < |sp.shaping| ==> ShapingAccepted(m, sp.shaping[i])
  }

  lemma ShapingsExactly(m: FeatureMap, sp: Program)
    requires DistinctNames(m)
    ensures ShapingsAccepted(m, sp) ==> ShapingsClean(sp, LastIndex(m.features, |m.features|))
    ensures ShapingsClean(sp, LastIndex(m.features, |m.features|)) ==> ShapingsAccepted(m, sp)
  {
    hide ShapingBreaks, ShapingAccepted, LastIndex;
    var index := LastIndex(m.features, |m.features|);
    forall i: nat | i < |sp.shaping| ensures ShapingAccepted(m, sp.shaping[i]) <==> ShapingClean(sp.shaping[i], index) {
      ShapingExactly(m, sp.shaping[i]);
    }
    if ShapingsClean(sp, index) {
      forall i: nat | i < |sp.shaping| ensures ShapingClean(sp.shaping[i], index) {
        forall r ensures !ShapingBreaks(r, sp.shaping[i], index) { assert !SomeShapingBreaks(r, sp, index); }
      }
    }
  }

  // ---- The program ----

  ghost predicate NoProgramRule(m: FeatureMap, sp: Program) { forall r :: !MapRule(r) ==> !Broken(r, m, sp) }

  lemma CleanProgramAccepted(m: FeatureMap, sp: Program)
    requires DistinctNames(m) && NoProgramRule(m, sp)
    ensures ProgramAccepted(m, sp)
  {
    hide ProgramBreaks, SomeShapingBreaks, LastIndex, LeavesAccepted, ShapingAccepted, RequiresOk, SomeFeatureBreaks,
      ValidMapName;
    var index := LastIndex(m.features, |m.features|);
    assert !Broken(Monotone, m, sp) && !Broken(MapRef, m, sp) && !Broken(Points, m, sp) && !Broken(Requires, m, sp);
    assert !Broken(FeatureExists, m, sp) && !Broken(StableOnly, m, sp) && !Broken(NotBytes, m, sp);
    assert !Broken(BitTarget, m, sp) && !Broken(BitWidth, m, sp);
    forall r ensures !ProgramBreaks(r, sp, Some(index)) && !SomeShapingBreaks(r, sp, index) { LeafRulesOnly(r, sp, m); }
    CleanLeavesAccepted(m, sp);
    ShapingsExactly(m, sp);
  }

  lemma AcceptedProgramClean(m: FeatureMap, sp: Program)
    requires DistinctNames(m) && ProgramAccepted(m, sp)
    ensures NoProgramRule(m, sp)
  {
    hide ProgramBreaks, SomeShapingBreaks, LastIndex, LeavesAccepted, ShapingAccepted, RequiresOk, SomeFeatureBreaks,
      ValidMapName;
    AcceptedLeavesClean(m, sp);
    ShapingsExactly(m, sp);
  }

  /**
   The validator reports nothing if and only if the pair is acceptable: every feature inside its
   region, every leaf at any depth naming a stable non-bytes feature with an in-range bit, every
   required stage an earlier one. The first-wins and last-wins indexes never differ on such a pair.
   */
  lemma AcceptsExactly(m: FeatureMap, sp: Program)
    ensures PairFindings(m, sp) == [] <==> MapAccepted(m) && ProgramAccepted(m, sp)
  {
    hide PairFindings, MapAccepted, ProgramAccepted, Broken, MapRule, Rules;
    NoFindings(PairFindings(m, sp));
    forall r ensures r in Rules(PairFindings(m, sp)) <==> Broken(r, m, sp) { ReportedExactly(m, sp, r); }
    if PairFindings(m, sp) == [] {
      forall r ensures !Broken(r, m, sp) { assert r !in Rules(PairFindings(m, sp)); }
      CleanMapAccepted(m, sp);
      AcceptedDistinct(m);
      CleanProgramAccepted(m, sp);
    }
    if MapAccepted(m) && ProgramAccepted(m, sp) {
      AcceptedDistinct(m);
      AcceptedMapClean(m, sp);
      AcceptedProgramClean(m, sp);
      forall r ensures r !in Rules(PairFindings(m, sp)) { assert !Broken(r, m, sp); }
    }
  }

  lemma AcceptedDistinct(m: FeatureMap)
    requires MapAccepted(m)
    ensures DistinctNames(m) && FirstIndex(m.features, |m.features|) == LastIndex(m.features, |m.features|)
  {
    hide FeatureAccepted, ValidMapName;
    IndexesAgree(m.features, |m.features|);
  }

  // ---- What an accepted pair guarantees its user ----

  /** Every leaf reads bytes that its region has. */
  lemma LeafReadable(m: FeatureMap, sp: Program, l: Leaf) returns (f: Feature)
    requires PairFindings(m, sp) == [] && InProgram(l, sp)
    ensures f in m.features && Answers(f, l) && Placed(m, f)
    ensures l.BitTest? ==> l.bit < 8 * ResolvedWidth(f).value
  {
    hide PairFindings, InProgram, ValidName, DiscretizeOk, BitflagsOk, GridAccepted, NamesStable, LastNamed;
    AcceptsExactly(m, sp);
    f :| f in m.features && Answers(f, l);
    var i :| 0 <= i < |m.features| && m.features[i] == f;
    assert FeatureAccepted(m, m.features[i]);
    MaxBitFitsWidth(f.kind);
  }

  /** Stage i names stage j among its requirements. */
  predicate Needs(sp: Program, i: nat, j: nat) {
    i < |sp.stages| && j < |sp.stages| && sp.stages[i].requires_.Some?
      && sp.stages[j].name in sp.stages[i].requires_.value
  }

  /** A chain of stages, each requiring the next. */
  predicate RequiresChain(sp: Program, chain: seq<nat>) {
    forall k :: 0 <= k < |chain| - 1 ==> Needs(sp, chain[k], chain[k + 1])
  }

  predicate DistinctStages(sp: Program) {
    forall i, j :: 0 <= i < j < |sp.stages| ==> sp.stages[i].name != sp.stages[j].name
  }

  /** With distinct stage names, required stages only ever lead back: no stage depends on itself. */
  lemma {:induction false} RequiresLeadBack(m: FeatureMap, sp: Program, chain: seq<nat>)
    requires PairFindings(m, sp) == [] && DistinctStages(sp) && RequiresChain(sp, chain) && |chain| >= 2
    ensures chain[|chain| - 1] < chain[0]
    decreases chain
  {
    hide PairFindings, LeavesAccepted, ShapingAccepted, MapAccepted;
    AcceptsExactly(m, sp);
    var n := |chain| - 2;
    NeedsEarlier(sp, chain[n], chain[n + 1]);
    if n > 0 {
      ChainPrefix(sp, chain, n + 1);
      RequiresLeadBack(m, sp, chain[..n + 1]);
    }
  }

  lemma NeedsEarlier(sp: Program, i: nat, j: nat)
    requires Needs(sp, i, j) && RequiresOk(sp, i) && DistinctStages(sp)
    ensures j < i
  {
    var reqs := sp.stages[i].requires_.value;
    var k :| 0 <= k < |reqs| && reqs[k] == sp.stages[j].name;
    assert EarlierStage(sp, i, reqs[k]);
  }

  lemma ChainPrefix(sp: Program, chain: seq<nat>, n: nat)
    requires RequiresChain(sp, chain) && n <= |chain|
    ensures RequiresChain(sp, chain[..n])
  {
    var head := chain[..n];
    forall k | 0 <= k < |head| - 1 ensures Needs(sp, head[k], head[k + 1]) {
      assert head[k] == chain[k] && head[k + 1] == chain[k + 1];
    }
  }
}
