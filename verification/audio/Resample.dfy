/** Linear resampling in exact arithmetic: a stream cut into chunks sounds as the stream whole. */
module Resample {
  type i16 = n: int | -0x8000 <= n <= 0x7FFF

  datatype Pair = Pair(l: i16, r: i16)

  // ---- Interpolation ----

  /** Round half away from zero. */
  function Round(v: real): int {
    if v >= 0.0 then (v + 0.5).Floor else -((-v + 0.5).Floor)
  }

  function Clamp(n: int): i16 {
    if n < -0x8000 then -0x8000 else if n > 0x7FFF then 0x7FFF else n
  }

  function Part(d: real, t: real): real { d * t }
  function Between(a: i16, b: i16, t: real): real { a as real + Part(b as real - a as real, t) }

  function Lerp(a: i16, b: i16, t: real): i16 { Clamp(Round(Between(a, b, t))) }

  lemma RoundMonotone(v: real, w: real)
    requires v <= w
    ensures Round(v) <= Round(w)
  {
  }

  lemma RoundExact(n: int)
    ensures Round(n as real) == n
  {
  }

  lemma BetweenBounded(a: i16, b: i16, t: real)
    requires 0.0 <= t < 1.0
    ensures a <= b ==> a as real <= Between(a, b, t) <= b as real
    ensures b <= a ==> b as real <= Between(a, b, t) <= a as real
  {
    hide Part;
    PartBounded(b as real - a as real, t);
  }

  lemma PartBounded(d: real, t: real)
    requires 0.0 <= t < 1.0
    ensures d >= 0.0 ==> 0.0 <= Part(d, t) <= d
    ensures d <= 0.0 ==> d <= Part(d, t) <= 0.0
  {
    Sign(d, t);
    Sign(d, 1.0 - t);
    assert d * (1.0 - t) == d - d * t;
  }

  lemma Sign(d: real, t: real)
    requires t >= 0.0
    ensures d >= 0.0 ==> d * t >= 0.0
    ensures d <= 0.0 ==> d * t <= 0.0
  {
  }

  /** An interpolated sample lies between its neighbours, so the clamp never acts. */
  lemma LerpBetween(a: i16, b: i16, t: real)
    requires 0.0 <= t < 1.0
    ensures Lerp(a, b, t) == Round(Between(a, b, t))
    ensures if a <= b then a <= Lerp(a, b, t) <= b else b <= Lerp(a, b, t) <= a
    ensures t == 0.0 ==> Lerp(a, b, t) == a
  {
    hide Round, Between;
    BetweenBounded(a, b, t);
    RoundExact(a);
    RoundExact(b);
    if a <= b {
      RoundMonotone(a as real, Between(a, b, t));
      RoundMonotone(Between(a, b, t), b as real);
    } else {
      RoundMonotone(b as real, Between(a, b, t));
      RoundMonotone(Between(a, b, t), a as real);
    }
    if t == 0.0 { assert Between(a, b, t) == a as real by { BetweenStart(a, b); } }
  }

  lemma BetweenStart(a: i16, b: i16)
    ensures Between(a, b, 0.0) == a as real
  {
  }

  /** The value at a position of a stream of pairs. */
  function Interp(ys: seq<Pair>, pos: real): Pair
    requires 0.0 <= pos < |ys| as real - 1.0
  {
    var i := pos.Floor;
    Pair(Lerp(ys[i].l, ys[i + 1].l, pos - i as real), Lerp(ys[i].r, ys[i + 1].r, pos - i as real))
  }

  // ---- How many outputs fall before a position ----

  type Ratio = r: real | r > 0.0 witness 1.0

  /** The least k with phase + k * r at or past n. */
  function Outputs(n: nat, phase: real, r: Ratio): nat {
    if phase >= n as real then 0
    else
      DivNonNegative(n as real - phase, r);
      -(((phase - n as real) / r).Floor)
  }

  lemma DivNonNegative(x: real, r: Ratio)
    requires x > 0.0
    ensures ((-x) / r).Floor <= 0
  {
    assert (-x) / r <= 0.0;
  }

  lemma MulDiv(x: real, r: Ratio)
    ensures x / r * r == x
  {
  }

  lemma Scale(x: real, y: real, r: Ratio)
    ensures x < y <==> x * r < y * r
  {
  }

  /** Output k is emitted exactly when its position is before the last input. */
  lemma OutputsExact(n: nat, phase: real, r: Ratio, k: nat)
    requires phase >= 0.0
    ensures k < Outputs(n, phase, r) <==> phase + k as real * r < n as real
  {
    if phase >= n as real {
      assert k as real * r >= 0.0;
    } else {
      var q := (phase - n as real) / r;
      MulDiv(phase - n as real, r);
      Scale(q, -(k as real), r);
      assert -(k as real) * r == -(k as real * r);
      assert k < -(q.Floor) <==> q < -(k as real);
    }
  }

  function Position(phase: real, r: Ratio, k: nat): real { phase + k as real * r }

  lemma PositionAdds(phase: real, r: Ratio, j: nat, k: nat)
    ensures Position(phase, r, j + k) == Position(Position(phase, r, j), r, k)
  {
    assert (j + k) as real * r == j as real * r + k as real * r;
  }

  // ---- The resampler's state and one push ----

  datatype State = State(ratio: Ratio, phase: real, prev: Option)
  datatype Option = NoPrev | Prev(pair: Pair)

  predicate Valid(s: State) { s.phase >= 0.0 }

  /** The pairs from the anchor on: the anchor at position 0, then the input. */
  function Stream(s: State, xs: seq<Pair>): seq<Pair> {
    if s.prev.Prev? then [s.prev.pair] + xs else xs
  }

  function Emitted(ys: seq<Pair>, phase: real, r: Ratio): (out: seq<Pair>)
    requires ys != [] && phase >= 0.0
    ensures |out| == Outputs(|ys| - 1, phase, r)
  {
    seq(Outputs(|ys| - 1, phase, r), k requires 0 <= k < Outputs(|ys| - 1, phase, r) =>
      OutputsExact(|ys| - 1, phase, r, k);
      MulNonNegative(k as real, r);
      Interp(ys, Position(phase, r, k)))
  }

  lemma MulNonNegative(x: real, r: Ratio)
    requires x >= 0.0
    ensures x * r >= 0.0
  {
  }

  function Advance(s: State, ys: seq<Pair>): State
    requires ys != [] && s.phase >= 0.0
  {
    var n := |ys| - 1;
    State(s.ratio, Position(s.phase, s.ratio, Outputs(n, s.phase, s.ratio)) - n as real, Prev(ys[n]))
  }

  function Push(s: State, xs: seq<Pair>): (State, seq<Pair>)
    requires Valid(s)
  {
    if xs == [] then (s, [])
    else (Advance(s, Stream(s, xs)), Emitted(Stream(s, xs), s.phase, s.ratio))
  }

  lemma PushValid(s: State, xs: seq<Pair>)
    requires Valid(s)
    ensures Valid(Push(s, xs).0) && Push(s, xs).0.ratio == s.ratio
    ensures xs != [] ==> Push(s, xs).0.prev == Prev(xs[|xs| - 1])
  {
    hide Outputs;
    if xs != [] {
      var n := |Stream(s, xs)| - 1;
      OutputsExact(n, s.phase, s.ratio, Outputs(n, s.phase, s.ratio));
    }
  }

  // ---- Chunking ----

  /** The outputs due before position m + n are those before m and, measured from m, those before n. */
  lemma OutputsAdd(m: nat, n: nat, phase: real, r: Ratio)
    requires phase >= 0.0
    ensures var k := Outputs(m, phase, r);
            var p := Position(phase, r, k) - m as real;
            p >= 0.0 && Outputs(m + n, phase, r) == k + Outputs(n, p, r)
  {
    hide Outputs;
    var k := Outputs(m, phase, r);
    OutputsExact(m, phase, r, k);
    var p := Position(phase, r, k) - m as real;
    var j := Outputs(n, p, r);
    OutputsExact(n, p, r, j);
    PositionAdds(phase, r, k, j);
    OutputsExact(m + n, phase, r, k + j);
    if j > 0 {
      OutputsExact(n, p, r, j - 1);
      PositionAdds(phase, r, k, j - 1);
      OutputsExact(m + n, phase, r, k + j - 1);
    } else if k > 0 {
      OutputsExact(m, phase, r, k - 1);
      OutputsExact(m + n, phase, r, k - 1);
    }
  }

  lemma InterpPrefix(ys: seq<Pair>, zs: seq<Pair>, pos: real)
    requires ys <= zs && 0.0 <= pos < |ys| as real - 1.0
    ensures Interp(zs, pos) == Interp(ys, pos)
  {
    hide Lerp;
  }

  lemma InterpSuffix(zs: seq<Pair>, m: nat, pos: real)
    requires m < |zs| && 0.0 <= pos < (|zs| - m) as real - 1.0
    ensures Interp(zs, pos + m as real) == Interp(zs[m..], pos)
  {
    hide Lerp;
    assert (pos + m as real).Floor == pos.Floor + m;
  }

  /** Emission over a stream is emission over its start, then over the rest from the last start pair on. */
  lemma EmittedSplits(zs: seq<Pair>, m: nat, phase: real, r: Ratio)
    requires m < |zs| && phase >= 0.0
    ensures var p := Position(phase, r, Outputs(m, phase, r)) - m as real;
            p >= 0.0 && Emitted(zs, phase, r) == Emitted(zs[..m + 1], phase, r) + Emitted(zs[m..], p, r)
  {
    hide Outputs, Interp, Position;
    var k := Outputs(m, phase, r);
    OutputsAdd(m, |zs| - 1 - m, phase, r);
    var p := Position(phase, r, k) - m as real;
    var (all, head, tail) := (Emitted(zs, phase, r), Emitted(zs[..m + 1], phase, r), Emitted(zs[m..], p, r));
    forall i | 0 <= i < |all| ensures all[i] == (head + tail)[i] {
      if i < k {
        HeadOutput(zs, m, phase, r, i);
      } else {
        TailOutput(zs, m, phase, r, i - k);
      }
    }
  }

  lemma HeadOutput(zs: seq<Pair>, m: nat, phase: real, r: Ratio, i: nat)
    requires m < |zs| && phase >= 0.0 && i < Outputs(m, phase, r) && i < Outputs(|zs| - 1, phase, r)
    ensures Emitted(zs, phase, r)[i] == Emitted(zs[..m + 1], phase, r)[i]
  {
    hide Outputs, Interp;
    OutputsExact(m, phase, r, i);
    MulNonNegative(i as real, r);
    InterpPrefix(zs[..m + 1], zs, Position(phase, r, i));
  }

  lemma TailOutput(zs: seq<Pair>, m: nat, phase: real, r: Ratio, i: nat)
    requires m < |zs| && phase >= 0.0
    requires var k := Outputs(m, phase, r);
             var p := Position(phase, r, k) - m as real;
             p >= 0.0 && i < Outputs(|zs| - 1 - m, p, r) && k + i < Outputs(|zs| - 1, phase, r)
    ensures var k := Outputs(m, phase, r);
            var p := Position(phase, r, k) - m as real;
            Emitted(zs, phase, r)[k + i] == Emitted(zs[m..], p, r)[i]
  {
    hide Outputs, Interp;
    var k := Outputs(m, phase, r);
    var p := Position(phase, r, k) - m as real;
    PositionAdds(phase, r, k, i);
    OutputsExact(|zs| - 1 - m, p, r, i);
    MulNonNegative(i as real, r);
    assert Position(phase, r, k + i) == Position(p, r, i) + m as real;
    InterpSuffix(zs, m, Position(p, r, i));
  }

  /** Chunk independence: pushing a and then b is pushing a + b, from any state. */
  lemma PushAppends(s: State, a: seq<Pair>, b: seq<Pair>)
    requires Valid(s)
    ensures Valid(Push(s, a).0)
    ensures var (t, head) := Push(s, a);
            Push(s, a + b) == (Push(t, b).0, head + Push(t, b).1)
  {
    hide Outputs, Emitted, Position;
    PushValid(s, a);
    if a == [] {
      assert a + b == b && [] + Push(s, b).1 == Push(s, b).1;
    } else if b == [] {
      var (t, head) := Push(s, a);
      PushNothing(t);
      assert a + b == a && head + [] == head;
    } else {
      var zs, m := Stream(s, a + b), |Stream(s, a)| - 1;
      assert zs[..m + 1] == Stream(s, a);
      var t := Push(s, a).0;
      assert zs[m..] == Stream(t, b);
      EmittedSplits(zs, m, s.phase, s.ratio);
      AdvanceSplits(s, zs, m);
    }
  }

  lemma AdvanceSplits(s: State, zs: seq<Pair>, m: nat)
    requires m < |zs| && Valid(s)
    ensures Valid(Advance(s, zs[..m + 1])) && Advance(s, zs) == Advance(Advance(s, zs[..m + 1]), zs[m..])
  {
    hide Outputs;
    OutputsAdd(m, |zs| - 1 - m, s.phase, s.ratio);
    var k := Outputs(m, s.phase, s.ratio);
    var p := Position(s.phase, s.ratio, k) - m as real;
    PositionAdds(s.phase, s.ratio, k, Outputs(|zs| - 1 - m, p, s.ratio));
  }

  // ---- A whole stream ----

  function Flatten(chunks: seq<seq<Pair>>): seq<Pair>
    decreases chunks
  {
    if chunks == [] then [] else chunks[0] + Flatten(chunks[1..])
  }

  function PushAll(s: State, chunks: seq<seq<Pair>>): (State, seq<Pair>)
    requires Valid(s)
    decreases chunks
  {
    if chunks == [] then (s, [])
    else
      PushValid(s, chunks[0]);
      var (t, head) := Push(s, chunks[0]);
      var (u, tail) := PushAll(t, chunks[1..]);
      (u, head + tail)
  }

  lemma {:induction false} ChunksDoNotMatter(s: State, chunks: seq<seq<Pair>>)
    requires Valid(s)
    ensures PushAll(s, chunks) == Push(s, Flatten(chunks))
    decreases chunks
  {
    hide Push, Valid;
    if chunks == [] {
      PushNothing(s);
    } else {
      PushAppends(s, chunks[0], Flatten(chunks[1..]));
      ChunksDoNotMatter(Push(s, chunks[0]).0, chunks[1..]);
    }
  }

  lemma PushNothing(s: State)
    requires Valid(s)
    ensures Push(s, []) == (s, [])
  {
  }

  /** ceil((N - 1) / r) as an integer. */
  function CeilQuotient(n: nat, r: Ratio): int { -((-(n as real) / r).Floor) }

  /**
   However a stream of N pairs is chunked, a fresh resampler emits exactly ceil((N - 1) / r) pairs,
   and the k-th lies between the inputs floor(k * r) and floor(k * r) + 1.
   */
  lemma StreamResampled(r: Ratio, chunks: seq<seq<Pair>>, k: nat)
    requires Flatten(chunks) != []
    ensures var xs := Flatten(chunks);
            var (end, out) := PushAll(State(r, 0.0, NoPrev), chunks);
            && |out| == CeilQuotient(|xs| - 1, r)
            && end.prev == Prev(xs[|xs| - 1]) && end.phase == |out| as real * r - (|xs| - 1) as real
            && (k < |out| ==> 0.0 <= k as real * r < |xs| as real - 1.0 && out[k] == Interp(xs, k as real * r))
  {
    hide Outputs, Interp, Flatten, PushAll;
    var xs, s := Flatten(chunks), State(r, 0.0, NoPrev);
    ChunksDoNotMatter(s, chunks);
    OutputsFromZero(|xs| - 1, r);
    if k < Outputs(|xs| - 1, 0.0, r) {
      OutputsExact(|xs| - 1, 0.0, r, k);
      MulNonNegative(k as real, r);
    }
  }

  lemma OutputsFromZero(n: nat, r: Ratio)
    ensures Outputs(n, 0.0, r) == CeilQuotient(n, r)
  {
    assert 0.0 - n as real == -(n as real);
    if n == 0 { assert -(n as real) / r == 0.0; }
  }
}
