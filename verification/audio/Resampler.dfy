/** The resampler as the object the sink feeds. */
module ResamplerObject {
  import opened Resample

  /** Interleaved samples read as pairs; a trailing odd sample is ignored. */
  function Pairs(input: seq<i16>): (ps: seq<Pair>)
    ensures |ps| == |input| / 2
  {
    seq(|input| / 2, i requires 0 <= i < |input| / 2 => Pair(input[2 * i], input[2 * i + 1]))
  }

  function Interleave(ps: seq<Pair>): (s: seq<i16>)
    ensures |s| == 2 * |ps|
    decreases ps
  {
    if ps == [] then [] else Interleave(ps[..|ps| - 1]) + [ps[|ps| - 1].l, ps[|ps| - 1].r]
  }

  lemma {:induction false} InterleaveAppends(a: seq<Pair>, b: seq<Pair>)
    ensures Interleave(a + b) == Interleave(a) + Interleave(b)
    decreases b
  {
    if b == [] {
      assert a + b == a && Interleave(a) + [] == Interleave(a);
    } else {
      var b1, p := b[..|b| - 1], b[|b| - 1];
      InterleaveAppends(a, b1);
      assert (a + b)[..|a + b| - 1] == a + b1;
      assert Interleave(a) + (Interleave(b1) + [p.l, p.r]) == Interleave(a) + Interleave(b1) + [p.l, p.r];
    }
  }

  /** Interleaving and pairing are inverse on whole pairs. */
  lemma {:induction false} PairsOfInterleave(ps: seq<Pair>)
    ensures Pairs(Interleave(ps)) == ps
    decreases ps
  {
    if ps != [] {
      var head, p := ps[..|ps| - 1], ps[|ps| - 1];
      PairsOfInterleave(head);
      var s := Interleave(ps);
      forall i | 0 <= i < |ps| ensures Pairs(s)[i] == ps[i] {
        if i < |head| { assert Pairs(Interleave(head))[i] == head[i]; }
      }
    }
  }

  const MAX_RATE_SLEW := 0.005

  function ClampScale(scale: real): real {
    if scale < 1.0 - MAX_RATE_SLEW then 1.0 - MAX_RATE_SLEW
    else if scale > 1.0 + MAX_RATE_SLEW then 1.0 + MAX_RATE_SLEW
    else scale
  }

  class Resampler {
    const baseRatio: Ratio
    var ratio: Ratio
    var phase: real
    var prev: Pair
    var hasPrev: bool

    constructor (inRate: nat, outRate: nat)
      requires inRate > 0 && outRate > 0
      ensures Now() == State(baseRatio, 0.0, NoPrev) && baseRatio * outRate as real == inRate as real
    {
      baseRatio := inRate as real / outRate as real;
      ratio := inRate as real / outRate as real;
      phase, prev, hasPrev := 0.0, Pair(0, 0), false;
    }

    function Now(): State
      reads this
    {
      State(ratio, phase, if hasPrev then Prev(prev) else NoPrev)
    }

    /** Only the step to the next output changes, never the position reached. */
    method SetRateScale(scale: real)
      modifies this`ratio
      ensures ratio == baseRatio * ClampScale(scale)
      ensures Now() == old(Now()).(ratio := ratio)
    {
      ratio := baseRatio * ClampScale(scale);
    }

    /** One output pair at the current position; `ys` is the anchor and the input after it. */
    method EmitOne(xs: seq<Pair>, start: nat, ghost ys: seq<Pair>) returns (p: Pair)
      requires start <= |xs| && hasPrev && ys == [prev] + xs[start..]
      requires 0.0 <= phase < (|xs| - start) as real
      modifies this`phase
      ensures p == Interp(ys, old(phase)) && phase == old(phase) + ratio
    {
      hide Lerp;
      var i := phase.Floor;
      var frac := phase - i as real;
      var s0 := if i == 0 then prev else xs[start + i - 1];
      var s1 := xs[start + i];
      p := Pair(Lerp(s0.l, s1.l, frac), Lerp(s0.r, s1.r, frac));
      phase := phase + ratio;
    }

    /** The interpolation loop. It ends because every output moves the position by the ratio. */
    method EmitAll(xs: seq<Pair>, start: nat, before: seq<i16>, ghost ys: seq<Pair>) returns (out: seq<i16>)
      requires start <= |xs| && hasPrev && ys == [prev] + xs[start..] && phase >= 0.0
      modifies this`phase
      ensures out == before + Interleave(Emitted(ys, old(phase), ratio))
      ensures phase == Position(old(phase), ratio, Outputs(|ys| - 1, old(phase), ratio))
    {
      hide Outputs, Interp, Interleave, Emitted, Position;
      out := before;
      ghost var all := Emitted(ys, phase, ratio);
      ghost var k := 0;
      StartPosition(phase, ratio);
      InterleaveNothing(before, all);
      while phase.Floor < |xs| - start
        invariant 0 <= k <= |all| && phase == Position(old(phase), ratio, k) >= 0.0
        invariant out == before + Interleave(all[..k])
        decreases |all| - k
      {
        OutputDue(|ys| - 1, old(phase), ratio, k);
        EmittedAt(ys, old(phase), ratio, k);
        StepPosition(old(phase), ratio, k);
        var p := EmitOne(xs, start, ys);
        InterleaveOne(before, all, k);
        out := out + [p.l, p.r];
        k := k + 1;
      }
      OutputDue(|ys| - 1, old(phase), ratio, k);
      assert all[..k] == all;
    }

    method Push(input: seq<i16>, before: seq<i16>) returns (out: seq<i16>)
      requires Valid(Now())
      modifies this
      ensures Now() == Resample.Push(old(Now()), Pairs(input)).0
      ensures out == before + Interleave(Resample.Push(old(Now()), Pairs(input)).1)
    {
      hide Outputs, Emitted, Position;
      var xs := Pairs(input);
      if xs == [] {
        assert before + [] == before;
        return before;
      }
      ghost var ys := Stream(Now(), xs);
      var start := 0;
      if !hasPrev {
        prev, hasPrev, start := xs[0], true, 1;
      }
      var n := |xs| - start;
      assert ys == [prev] + xs[start..];
      out := EmitAll(xs, start, before, ys);
      if n > 0 {
        prev := xs[start + n - 1];
        phase := phase - n as real;
      }
    }
  }

  // ---- Steps of the loop ----

  lemma StartPosition(phase: real, r: Ratio)
    ensures Position(phase, r, 0) == phase
  {
  }

  lemma StepPosition(phase: real, r: Ratio, k: nat)
    requires phase >= 0.0
    ensures Position(phase, r, k + 1) == Position(phase, r, k) + r
    ensures Position(phase, r, k) >= 0.0
  {
    PositionAdds(phase, r, k, 1);
    MulNonNegative(k as real, r);
  }

  /** The loop guard, on whole positions, is exactly that an output is still due. */
  lemma OutputDue(n: nat, phase: real, r: Ratio, k: nat)
    requires phase >= 0.0
    ensures Position(phase, r, k).Floor < n <==> k < Outputs(n, phase, r)
    ensures Position(phase, r, k) < n as real <==> k < Outputs(n, phase, r)
  {
    hide Outputs;
    OutputsExact(n, phase, r, k);
  }

  lemma EmittedAt(ys: seq<Pair>, phase: real, r: Ratio, k: nat)
    requires ys != [] && phase >= 0.0 && k < Outputs(|ys| - 1, phase, r)
    ensures 0.0 <= Position(phase, r, k) < |ys| as real - 1.0
    ensures Emitted(ys, phase, r)[k] == Interp(ys, Position(phase, r, k))
  {
    hide Outputs, Interp;
    OutputsExact(|ys| - 1, phase, r, k);
    MulNonNegative(k as real, r);
  }

  lemma InterleaveNothing(before: seq<i16>, all: seq<Pair>)
    ensures before == before + Interleave(all[..0])
  {
  }

  lemma InterleaveOne(before: seq<i16>, all: seq<Pair>, k: nat)
    requires k < |all|
    ensures before + Interleave(all[..k]) + [all[k].l, all[k].r] == before + Interleave(all[..k + 1])
  {
    assert all[..k + 1][..k] == all[..k];
  }
}
