/** What one critical section does to the pairs waiting in the queue, and how near an interpolated sample comes. */
module Accounts {
  import opened Resample
  import opened ResamplerObject
  import opened PlayQueue
  import opened Sink

  // ---- Samples ----

  /** Rounding gives the nearest integer, a half going away from zero. */
  lemma RoundMeans(v: real)
    ensures v >= 0.0 ==> v - 0.5 < Round(v) as real <= v + 0.5
    ensures v < 0.0 ==> v - 0.5 <= Round(v) as real < v + 0.5
  {
  }

  /** Within half a step of the straight line from `a` to `b`. */
  predicate Near(x: i16, a: i16, b: i16, t: real) {
    -0.5 <= x as real - (a as real + (b as real - a as real) * t) <= 0.5
  }

  lemma NearLine(a: i16, b: i16, t: real)
    requires 0.0 <= t < 1.0
    ensures Near(Lerp(a, b, t), a, b, t)
  {
    hide Round, Lerp;
    LerpBetween(a, b, t);
    RoundMeans(Between(a, b, t));
  }

  /** An interpolated pair is near the line between the two inputs around its position, in both channels. */
  lemma InterpMeans(ys: seq<Pair>, i: nat, t: real)
    requires i + 1 < |ys| && 0.0 <= t < 1.0
    ensures var p := Interp(ys, i as real + t);
            Near(p.l, ys[i].l, ys[i + 1].l, t) && Near(p.r, ys[i].r, ys[i + 1].r, t)
  {
    hide Lerp, Near;
    var pos := i as real + t;
    assert pos.Floor == i && pos - i as real == t;
    NearLine(ys[i].l, ys[i + 1].l, t);
    NearLine(ys[i].r, ys[i + 1].r, t);
  }

  // ---- Rates and watermarks ----

  /** A scale outside the slew is brought to its nearer end. */
  lemma ClampScaleMeans(scale: real)
    ensures 0.995 <= ClampScale(scale) <= 1.005
    ensures ClampScale(scale) < scale ==> ClampScale(scale) == 1.005
    ensures ClampScale(scale) > scale ==> ClampScale(scale) == 0.995
  {
  }

  /** The scale falls in proportion to the missing depth, and rises as far as the slew goes. */
  lemma RateScaleMeans(depth: nat, target: nat)
    requires target > 0
    ensures depth >= 2 * target ==> RateScale(depth, target) == 1.005
    ensures depth <= 2 * target ==>
              (1.0 - RateScale(depth, target)) * target as real == (target as real - depth as real) * 0.005
  {
    hide ClampUnit;
    var error := (target as real - depth as real) / target as real;
    QuotientMeans(target as real - depth as real, target as real);
    ClampedShare(error);
    Regroup(error, target as real);
  }

  lemma ClampedShare(x: real)
    ensures x <= -1.0 ==> ClampUnit(x) == -1.0
    ensures -1.0 <= x <= 1.0 ==> ClampUnit(x) == x
  {
  }

  lemma QuotientMeans(x: real, y: real)
    requires y > 0.0
    ensures x / y * y == x
    ensures x <= -y <==> x / y <= -1.0
    ensures x <= y <==> x / y <= 1.0
  {
    var q := x / y;
    assert q * y == x;
    if q > -1.0 { assert (q + 1.0) * y > 0.0; } else { assert (q + 1.0) * y <= 0.0; }
    if q > 1.0 { assert (q - 1.0) * y > 0.0; } else { assert (q - 1.0) * y <= 0.0; }
  }

  lemma Regroup(x: real, y: real)
    ensures (1.0 - (1.0 - x * 0.005)) * y == x * y * 0.005
  {
  }

  /** The low watermark is 100 ms and the high one 250 ms of sound, in whole pairs of samples. */
  lemma MarksMean(rate: nat)
    ensures var m := DeviceMarks(rate);
            && m.low % 2 == 0 && m.low <= 2 * rate * 100 / 1000 < m.low + 2
            && m.high % 2 == 0 && m.high <= 2 * rate * 250 / 1000 < m.high + 2
  {
    assert rate * 2 * LOW_MS == 2 * rate * 100 && rate * 2 * HIGH_MS == 2 * rate * 250;
  }

  /** Only an empty queue is primed, with zeros. */
  lemma PrimedMeans(q: seq<i16>, target: nat)
    ensures q != [] ==> Primed(q, target) == q
    ensures q == [] ==> |Primed(q, target)| == target && forall i :: 0 <= i < target ==> Primed(q, target)[i] == 0
  {
  }

  // ---- The sections, on pairs ----

  /** The pairs still in the queue. */
  function Waiting(t: Tape): seq<Pair>
    requires |t.fates| <= |t.enqueued|
  {
    t.enqueued[|t.fates|..]
  }

  /** Priming an empty queue adds the low watermark of silence; any other queue it leaves alone. */
  lemma PrimeMeans(t: Tape, m: Marks)
    requires Sane(t) && GoodMarks(m)
    ensures var u := Do(t, m, Prime);
            && u.sent == t.sent && u.fates == t.fates && u.produced == t.produced
            && u.enqueued == t.enqueued + (if Waiting(t) == [] then Silent(m.low / 2) else [])
            && u.primed == t.primed + (if Waiting(t) == [] then m.low / 2 else 0)
  {
    assert t.queue == [] <==> Waiting(t) == [];
    assert t.enqueued + [] == t.enqueued;
  }

  /**
   Extending adds the chunk; if that is more than the high watermark holds, the oldest pairs are dropped
   until just the low watermark is left.
   */
  lemma ExtendMeans(t: Tape, m: Marks, chunk: seq<Pair>)
    requires Sane(t) && GoodMarks(m)
    ensures var (u, n) := (Do(t, m, Extend(chunk)), |Waiting(t)| + |chunk|);
            && u.sent == t.sent && u.primed == t.primed && u.produced == t.produced + |chunk|
            && u.enqueued == t.enqueued + chunk
            && u.fates == t.fates + Repeat(Dropped, if 2 * n <= m.high then 0 else n - m.low / 2)
  {
    hide Interleave, PlayedOf, Heard;
    assert |t.queue + Interleave(chunk)| == 2 * (|Waiting(t)| + |chunk|);
  }

  /** A callback plays as many waiting pairs as it has frames for, in order, and fills the rest with gaps. */
  lemma CallbackMeans(t: Tape, m: Marks, frames: nat)
    requires Sane(t)
    ensures var (u, n) := (Do(t, m, Callback(frames)), if frames < |Waiting(t)| then frames else |Waiting(t)|);
            && u.enqueued == t.enqueued && u.primed == t.primed && u.produced == t.produced
            && u.fates == t.fates + Repeat(Played, n)
            && u.sent == t.sent + Sounds(Waiting(t)[..n]) + Gaps(frames - n)
  {
    hide Interleave, PlayedOf, Heard, PopFrames, Silent, Sounds;
    PoppedPairs(Waiting(t), frames);
    var n := Min(frames, |Waiting(t)|);
    assert PopFrames(t.queue, frames).0[..n] == Waiting(t)[..n];
  }

  /** A callback that finds the lock taken sends gaps and touches nothing. */
  lemma ContendedMeans(t: Tape, m: Marks, frames: nat)
    ensures Do(t, m, Contended(frames)) == t.(sent := t.sent + Gaps(frames))
  {
  }

  // ---- Runs ----

  lemma {:induction false} DoneInOrder(t: Tape, m: Marks, steps: seq<Step>, s: Step)
    ensures DoAll(t, m, []) == t && DoAll(t, m, steps + [s]) == Do(DoAll(t, m, steps), m, s)
    decreases steps
  {
    hide Do;
    if steps == [] {
      assert [] + [s] == [s] && [s][1..] == [];
      assert DoAll(t, m, [s]) == DoAll(Do(t, m, s), m, []);
    } else {
      assert (steps + [s])[1..] == steps[1..] + [s];
      DoneInOrder(Do(t, m, steps[0]), m, steps[1..], s);
    }
  }

  /** Frames asked for by callbacks, and pairs given to extend sections. */
  function Asked(steps: seq<Step>): nat {
    if steps == [] then 0
    else
      var last := steps[|steps| - 1];
      Asked(steps[..|steps| - 1]) + (if last.Callback? || last.Contended? then last.frames else 0)
  }

  function Given(steps: seq<Step>): nat {
    if steps == [] then 0
    else
      var last := steps[|steps| - 1];
      Given(steps[..|steps| - 1]) + (if last.Extend? then |last.chunk| else 0)
  }

  lemma {:induction false} PlayedCounted(ps: seq<Pair>, fates: seq<Fate>)
    requires |fates| <= |ps|
    ensures |PlayedOf(ps, fates)| == CountOf(fates, Played)
    decreases fates
  {
    if fates != [] { PlayedCounted(ps, fates[..|fates| - 1]); }
  }

  /**
   Every frame and every pair is accounted for: the device got a frame for each it asked for, each pair
   produced was enqueued, and as many pairs sounded as the record calls played.
   */
  lemma {:induction false} EverythingAccounted(m: Marks, steps: seq<Step>)
    requires GoodMarks(m)
    ensures var t := DoAll(Opened(m), m, steps);
            && |t.sent| == Asked(steps) && t.produced == Given(steps)
            && |Heard(t.sent)| == CountOf(t.fates, Played)
    decreases |steps|
  {
    hide Do, PlayedOf, Heard, CountOf, Sane;
    OpenedSane(m);
    RunKeeps(Opened(m), m, steps);
    PlayedSane(DoAll(Opened(m), m, steps));
    if steps == [] {
      assert DoAll(Opened(m), m, steps) == Opened(m);
    } else {
      var (front, s) := (steps[..|steps| - 1], steps[|steps| - 1]);
      assert steps == front + [s];
      EverythingAccounted(m, front);
      DoneInOrder(Opened(m), m, front, s);
      RunKeeps(Opened(m), m, front);
      StepAccounted(DoAll(Opened(m), m, front), m, s);
    }
  }

  lemma PlayedSane(t: Tape)
    requires Sane(t)
    ensures |Heard(t.sent)| == CountOf(t.fates, Played)
  {
    PlayedCounted(t.enqueued, t.fates);
  }

  lemma StepAccounted(t: Tape, m: Marks, s: Step)
    requires Sane(t) && GoodMarks(m)
    ensures var u := Do(t, m, s);
            && |u.sent| == |t.sent| + (if s.Callback? || s.Contended? then s.frames else 0)
            && u.produced == t.produced + (if s.Extend? then |s.chunk| else 0)
  {
    hide Do, PlayedOf, Heard;
    match s {
      case Prime => PrimeMeans(t, m);
      case Extend(chunk) => ExtendMeans(t, m, chunk);
      case Callback(frames) => CallbackMeans(t, m, frames);
      case Contended(frames) => ContendedMeans(t, m, frames);
    }
  }
}
