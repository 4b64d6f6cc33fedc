/** Feature maps and scoring programs as parsed, with the questions their validator asks of single items. */
module Documents {
  import opened Timing

  datatype FeatureType =
    | U8 | U16le | U16be | U32le | U32be | I8 | I16le | I16be | I32le | I32be
    | Bitflags8 | Bitflags16le | Bitflags32le | Bcd8 | Bcd16le | Bytes

  datatype Discretize =
    | Identity
    | Bucket(size: nat)
    | Bits
    | Threshold(edges: seq<int>)
    | Grid(x: string, y: string, room: string, cellW: nat, cellH: nat)
    | Undiscretized

  datatype Feature = Feature(
    name: string,
    region: string,
    offset: int,
    kind: FeatureType,
    width: Option<nat>,
    stable: bool,
    discretize: Option<Discretize>,
    validWhen: Option<string>)

  datatype Region = Region(name: string, size: nat)

  datatype FeatureMap = FeatureMap(name: string, regions: seq<Region>, features: seq<Feature>)

  datatype Leaf = Compare(feature: string) | BitTest(feature: string, bit: nat)
  datatype Pred = All(all: seq<Pred>) | Any(any: seq<Pred>) | Not(not: Pred) | LeafPred(leaf: Leaf)

  datatype Stage = Stage(name: string, points: int, when: Pred, requires_: Option<seq<string>>)
  datatype Shaping = Shaping(feature: string, popcount: bool)

  datatype Program = Program(
    featureMap: string,
    monotone: bool,
    stages: seq<Stage>,
    shaping: seq<Shaping>,
    penalties: seq<Pred>,
    goal: Pred)

  // ---- Single items ----

  function DerivedWidth(t: FeatureType): Option<nat> {
    match t
    case Bytes => None
    case U8 => Some(1) case I8 => Some(1) case Bitflags8 => Some(1) case Bcd8 => Some(1)
    case U32le => Some(4) case U32be => Some(4) case I32le => Some(4) case I32be => Some(4) case Bitflags32le => Some(4)
    case _ => Some(2)
  }

  predicate IntegerScalar(t: FeatureType) {
    t.U8? || t.U16le? || t.U16be? || t.U32le? || t.U32be? || t.I8? || t.I16le? || t.I16be? || t.I32le? || t.I32be?
  }

  function MaxBit(t: FeatureType): Option<nat> {
    match t
    case Bitflags8 => Some(7)
    case Bitflags16le => Some(15)
    case Bitflags32le => Some(31)
    case _ => None
  }

  predicate Bitflags(t: FeatureType) { t.Bitflags8? || t.Bitflags16le? || t.Bitflags32le? }

  /** A bit index fits the type's own width. */
  lemma MaxBitFitsWidth(t: FeatureType)
    ensures Bitflags(t) <==> MaxBit(t).Some?
    ensures Bitflags(t) ==> MaxBit(t).value + 1 == 8 * DerivedWidth(t).value
  {
  }

  predicate Lower(c: char) { 'a' <= c <= 'z' }
  predicate Digit(c: char) { '0' <= c <= '9' }

  predicate ValidName(s: string) {
    0 < |s| <= 64 && Lower(s[0]) && forall i :: 1 <= i < |s| ==> Lower(s[i]) || Digit(s[i]) || s[i] == '_'
  }

  predicate ValidMapName(s: string) {
    s != "" && forall i :: 0 <= i < |s| ==> Lower(s[i]) || Digit(s[i]) || s[i] == '-'
  }

  /** The width a feature occupies; none when the declaration is missing or disagrees with the type. */
  function ResolvedWidth(f: Feature): Option<nat> {
    if f.kind.Bytes? then f.width
    else if f.width.Some? && f.width != DerivedWidth(f.kind) then None
    else DerivedWidth(f.kind)
  }

  predicate Ascending(edges: seq<int>) { forall i :: 0 <= i < |edges| - 1 ==> edges[i] < edges[i + 1] }

  predicate DiscretizeOk(d: Option<Discretize>) {
    d.None? || match d.value
               case Bucket(size) => size >= 1
               case Threshold(edges) => edges != [] && Ascending(edges)
               case _ => true
  }

  predicate NoDiscretize(d: Option<Discretize>) { d.None? || d.value.Undiscretized? }

  // ---- Indexes ----

  /** Of regions with one name the last declaration counts. */
  function RegionSizes(rs: seq<Region>, n: nat): map<string, nat>
    requires n <= |rs|
  {
    if n == 0 then map[] else RegionSizes(rs, n - 1)[rs[n - 1].name := rs[n - 1].size]
  }

  /** Region `k` is the last declared under `name`. */
  predicate LastNamed(rs: seq<Region>, n: nat, k: nat, name: string)
    requires n <= |rs| && k < n
  {
    rs[k].name == name && forall j :: k < j < n ==> rs[j].name != name
  }

  lemma {:induction false} RegionSizesMeans(rs: seq<Region>, n: nat, name: string)
    requires n <= |rs|
    ensures name in RegionSizes(rs, n) <==> exists k: nat :: k < n && LastNamed(rs, n, k, name)
    ensures forall k: nat :: k < n && LastNamed(rs, n, k, name) ==>
              name in RegionSizes(rs, n) && RegionSizes(rs, n)[name] == rs[k].size
    decreases n
  {
    if n > 0 {
      RegionSizesMeans(rs, n - 1, name);
      if rs[n - 1].name == name {
        assert LastNamed(rs, n, n - 1, name);
      } else {
        assert forall k: nat :: k < n - 1 ==> (LastNamed(rs, n, k, name) <==> LastNamed(rs, n - 1, k, name));
        if name in RegionSizes(rs, n - 1) {
          var k: nat :| k < n - 1 && LastNamed(rs, n - 1, k, name);
          assert LastNamed(rs, n, k, name);
        }
      }
    }
  }

  /** The map's own index keeps the first feature of a name. */
  function FirstIndex(fs: seq<Feature>, n: nat): map<string, Feature>
    requires n <= |fs|
  {
    if n == 0 then map[]
    else
      var m := FirstIndex(fs, n - 1);
      if fs[n - 1].name in m then m else m[fs[n - 1].name := fs[n - 1]]
  }

  /** The cross-file index keeps the last. */
  function LastIndex(fs: seq<Feature>, n: nat): map<string, Feature>
    requires n <= |fs|
  {
    if n == 0 then map[] else LastIndex(fs, n - 1)[fs[n - 1].name := fs[n - 1]]
  }

  predicate Repeats(fs: seq<Feature>, i: nat)
    requires i < |fs|
  {
    exists j :: 0 <= j < i && fs[j].name == fs[i].name
  }

  lemma {:induction false} FirstIndexNames(fs: seq<Feature>, n: nat, name: string)
    requires n <= |fs|
    ensures name in FirstIndex(fs, n) <==> exists j :: 0 <= j < n && fs[j].name == name
    ensures name in LastIndex(fs, n) <==> exists j :: 0 <= j < n && fs[j].name == name
    ensures name in FirstIndex(fs, n) ==> FirstIndex(fs, n)[name] in fs && FirstIndex(fs, n)[name].name == name
    ensures name in LastIndex(fs, n) ==> LastIndex(fs, n)[name] in fs && LastIndex(fs, n)[name].name == name
    decreases n
  {
    if n > 0 {
      FirstIndexNames(fs, n - 1, name);
      if fs[n - 1].name != name {
        assert (exists j :: 0 <= j < n && fs[j].name == name) <==> exists j :: 0 <= j < n - 1 && fs[j].name == name;
      }
    }
  }

  /** Without repeated names the two indexes are the same. */
  lemma {:induction false} IndexesAgree(fs: seq<Feature>, n: nat)
    requires n <= |fs| && forall i :: 0 <= i < n ==> !Repeats(fs, i)
    ensures FirstIndex(fs, n) == LastIndex(fs, n)
    decreases n
  {
    if n > 0 {
      IndexesAgree(fs, n - 1);
      FirstIndexNames(fs, n - 1, fs[n - 1].name);
      assert !Repeats(fs, n - 1);
    }
  }
}
