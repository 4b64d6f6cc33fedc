/** What the validator's questions about single items mean, in the words of the format. */
module ItemRules {
  import opened Timing
  import opened Documents
  import opened Findings
  import opened Exact

  // ---- Types and widths ----

  /** A type takes one, two or four bytes, and only raw bytes have no width of their own. */
  lemma WidthsMean(t: FeatureType)
    ensures DerivedWidth(t).None? <==> t == Bytes
    ensures DerivedWidth(t) == Some(1) <==> t in {U8, I8, Bitflags8, Bcd8}
    ensures DerivedWidth(t) == Some(2) <==> t in {U16le, U16be, I16le, I16be, Bitflags16le, Bcd16le}
    ensures DerivedWidth(t) == Some(4) <==> t in {U32le, U32be, I32le, I32be, Bitflags32le}
  {
  }

  /** The integer types are those that are neither raw bytes nor bit flags nor packed decimal. */
  lemma IntegersMean(t: FeatureType)
    ensures IntegerScalar(t) <==> t != Bytes && t != Bcd8 && t != Bcd16le && MaxBit(t).None?
  {
  }

  /** A width is settled when the type gives it and the declaration, if any, agrees; raw bytes must declare it. */
  lemma WidthSettled(f: Feature, w: nat)
    ensures ResolvedWidth(f) == Some(w) <==>
            if f.kind == Bytes then f.width == Some(w)
            else DerivedWidth(f.kind) == Some(w) && (f.width == None || f.width == Some(w))
  {
  }

  // ---- Names ----

  const LETTERS := "abcdefghijklmnopqrstuvwxyz"
  const DIGITS := "0123456789"

  lemma LettersMean(c: char)
    ensures Lower(c) <==> c in LETTERS
  {
    if Lower(c) { assert LETTERS[c as int - 'a' as int] == c; }
  }

  lemma DigitsMean(c: char)
    ensures Digit(c) <==> c in DIGITS
  {
    if Digit(c) { assert DIGITS[c as int - '0' as int] == c; }
  }

  /** Feature names: a letter, then up to 63 letters, digits or underscores. */
  lemma NamesMean(s: string)
    ensures ValidName(s) <==>
            1 <= |s| <= 64 && s[0] in LETTERS && forall c :: c in s[1..] ==> c in LETTERS + DIGITS + "_"
  {
    hide Lower, Digit;
    forall c: char ensures (Lower(c) <==> c in LETTERS) && (Digit(c) <==> c in DIGITS) {
      LettersMean(c);
      DigitsMean(c);
    }
    forall i | 1 <= i < |s| ensures s[i] in s[1..] { assert s[1..][i - 1] == s[i]; }
  }

  /** Map names: letters, digits and hyphens, at least one. */
  lemma MapNamesMean(s: string)
    ensures ValidMapName(s) <==> |s| > 0 && forall c :: c in s ==> c in LETTERS + DIGITS + "-"
  {
    hide Lower, Digit;
    forall c: char ensures (Lower(c) <==> c in LETTERS) && (Digit(c) <==> c in DIGITS) {
      LettersMean(c);
      DigitsMean(c);
    }
    forall i | 0 <= i < |s| ensures s[i] in s {}
  }

  // ---- Discretisation ----

  lemma {:induction false} AscendingMeans(edges: seq<int>, i: nat, j: nat)
    requires Ascending(edges) && i < j < |edges|
    ensures edges[i] < edges[j]
    decreases j
  {
    if i < j - 1 { AscendingMeans(edges, i, j - 1); }
  }

  /** Buckets have a size, and thresholds are some numbers in strictly increasing order; nothing else is asked. */
  lemma DiscretizeMeans(d: Option<Discretize>)
    ensures !DiscretizeOk(d) <==>
            d == Some(Bucket(0)) || (d.Some? && d.value.Threshold?
                                     && !(|d.value.edges| > 0 && forall i, j :: 0 <= i < j < |d.value.edges| ==>
                                            d.value.edges[i] < d.value.edges[j]))
  {
    if d.Some? && d.value.Threshold? && Ascending(d.value.edges) {
      forall i, j | 0 <= i < j < |d.value.edges| ensures d.value.edges[i] < d.value.edges[j] {
        AscendingMeans(d.value.edges, i, j);
      }
    }
  }

  /** Bit flags are never bucketed, gridded, cut at thresholds or taken as they stand. */
  lemma BitflagsMean(f: Feature)
    ensures !BitflagsOk(f) <==>
            MaxBit(f.kind).Some? && f.discretize.Some?
            && (f.discretize.value.Identity? || f.discretize.value.Bucket? || f.discretize.value.Threshold?
                || f.discretize.value.Grid?)
    ensures NoDiscretize(f.discretize) <==> f.discretize in {None, Some(Undiscretized)}
  {
  }

  // ---- Stages ----

  /** A stage may require up to eight of the stages before it. */
  lemma RequiresMean(sp: Program, i: nat)
    requires i < |sp.stages|
    ensures RequiresOk(sp, i) <==>
            sp.stages[i].requires_ == None
            || (|sp.stages[i].requires_.value| <= 8
                && forall r :: r in sp.stages[i].requires_.value ==> exists s :: s in sp.stages[..i] && s.name == r)
  {
    forall r: string ensures EarlierStage(sp, i, r) <==> exists s :: s in sp.stages[..i] && s.name == r {
      if EarlierStage(sp, i, r) {
        var j :| 0 <= j < i && sp.stages[j].name == r;
        assert sp.stages[..i][j] == sp.stages[j];
      }
    }
    if sp.stages[i].requires_.Some? {
      var reqs := sp.stages[i].requires_.value;
      forall k | 0 <= k < |reqs| ensures reqs[k] in reqs {}
    }
  }

  // ---- Indexes ----

  /** Under a repeated name the map's own index holds the first feature declared and the cross-file index the last. */
  lemma {:induction false} IndexesMean(fs: seq<Feature>, n: nat, k: nat)
    requires k < n <= |fs|
    ensures (forall j :: 0 <= j < k ==> fs[j].name != fs[k].name) ==>
              fs[k].name in FirstIndex(fs, n) && FirstIndex(fs, n)[fs[k].name] == fs[k]
    ensures (forall j :: k < j < n ==> fs[j].name != fs[k].name) ==>
              fs[k].name in LastIndex(fs, n) && LastIndex(fs, n)[fs[k].name] == fs[k]
    decreases n
  {
    if k < n - 1 {
      IndexesMean(fs, n - 1, k);
    } else {
      FirstIndexNames(fs, n - 1, fs[k].name);
    }
  }
}
