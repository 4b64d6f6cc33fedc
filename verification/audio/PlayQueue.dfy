/** The shared playback queue: three critical sections, and what every interleaving of them keeps. */
module PlayQueue {
  import opened Resample
  import opened ResamplerObject

  const SILENCE := Pair(0, 0)

  function Zeros(n: nat): seq<i16> { seq(n, i => 0) }
  function Silent(n: nat): seq<Pair> { seq(n, i => SILENCE) }

  // ---- The critical sections, on samples ----

  function Primed(q: seq<i16>, target: nat): seq<i16> { if q == [] then Zeros(target) else q }

  function Min(a: nat, b: nat): nat { if a < b then a else b }

  /** Above the high watermark the oldest samples go, down to the low one. */
  function Trimmed(q: seq<i16>, high: nat, low: nat): seq<i16> {
    if |q| <= high then q else q[|q| - Min(low, |q|)..]
  }

  /** Each pop of an empty queue gives 0. */
  function PopFrame(q: seq<i16>): (Pair, seq<i16>) {
    if q == [] then (SILENCE, [])
    else if |q| == 1 then (Pair(q[0], 0), [])
    else (Pair(q[0], q[1]), q[2..])
  }

  function PopFrames(q: seq<i16>, n: nat): (r: (seq<Pair>, seq<i16>))
    ensures |r.0| == n
    decreases n
  {
    if n == 0 then ([], q)
    else
      var (p, q1) := PopFrame(q);
      var (rest, q2) := PopFrames(q1, n - 1);
      ([p] + rest, q2)
  }

  /** Queue thresholds are whole pairs. */
  function EvenFloor(n: nat): nat { n - n % 2 }
  function SampleCount(ms: nat, rate: nat): nat { rate * 2 * ms / 1000 }

  datatype Marks = Marks(high: nat, low: nat)

  const HIGH_MS := 250
  const LOW_MS := 100

  function DeviceMarks(rate: nat): Marks {
    Marks(EvenFloor(SampleCount(HIGH_MS, rate)), EvenFloor(SampleCount(LOW_MS, rate)))
  }

  predicate GoodMarks(m: Marks) { m.high % 2 == 0 && m.low % 2 == 0 && 0 < m.low <= m.high }

  /** Every rate the sink opens gives whole-pair watermarks in order. */
  lemma MarksGood(rate: nat)
    requires rate >= 1000
    ensures GoodMarks(DeviceMarks(rate))
  {
    var low, high := SampleCount(LOW_MS, rate), SampleCount(HIGH_MS, rate);
    assert 1000 * low <= rate * 2 * LOW_MS < 1000 * low + 1000;
    assert 1000 * high <= rate * 2 * HIGH_MS < 1000 * high + 1000;
    EvenOrdered(low, high);
  }

  lemma EvenOrdered(a: nat, b: nat)
    requires a <= b
    ensures EvenFloor(a) <= EvenFloor(b) && EvenFloor(a) % 2 == 0 && EvenFloor(b) % 2 == 0
    ensures a >= 2 ==> EvenFloor(a) > 0
  {
  }

  // ---- Pairs in and out of the queue ----

  lemma InterleaveHead(ps: seq<Pair>)
    requires ps != []
    ensures Interleave(ps) == [ps[0].l, ps[0].r] + Interleave(ps[1..])
  {
    InterleaveAppends([ps[0]], ps[1..]);
    assert [ps[0]] + ps[1..] == ps;
    assert [ps[0]][..0] == [];
    assert Interleave([ps[0]]) == Interleave([]) + [ps[0].l, ps[0].r];
  }

  lemma {:induction false} PoppedNothing(n: nat)
    ensures PopFrames([], n) == (Silent(n), [])
    decreases n
  {
    if n == 0 {
      assert Silent(0) == [];
    } else {
      PoppedNothing(n - 1);
      assert [SILENCE] + Silent(n - 1) == Silent(n);
    }
  }

  /** Popping n frames takes pairs from the front, then gives silence. */
  lemma {:induction false} PoppedPairs(ps: seq<Pair>, n: nat)
    ensures var m := Min(n, |ps|);
            PopFrames(Interleave(ps), n) == (ps[..m] + Silent(n - m), Interleave(ps[m..]))
    decreases n
  {
    hide Interleave;
    if ps == [] {
      InterleaveEmpty();
      PoppedNothing(n);
      assert ps[..0] + Silent(n) == Silent(n);
    } else if n == 0 {
      assert ps[..0] + Silent(0) == [] && ps[0..] == ps;
    } else {
      PopOne(ps, n);
      PoppedPairs(ps[1..], n - 1);
      var m := Min(n, |ps|);
      assert ps[1..][m - 1..] == ps[m..];
      var head, tail := ps[1..][..m - 1], Silent(n - m);
      assert [ps[0]] + head == ps[..m] && [ps[0]] + (head + tail) == [ps[0]] + head + tail;
    }
  }

  lemma InterleaveEmpty()
    ensures Interleave([]) == []
  {
  }

  lemma PopOne(ps: seq<Pair>, n: nat)
    requires ps != [] && n > 0
    ensures var (rest, q) := PopFrames(Interleave(ps[1..]), n - 1);
            PopFrames(Interleave(ps), n) == ([ps[0]] + rest, q)
  {
    hide Interleave;
    InterleaveHead(ps);
    assert Interleave(ps)[2..] == Interleave(ps[1..]);
  }

  lemma {:induction false} ZerosArePairs(n: nat)
    ensures Zeros(2 * n) == Interleave(Silent(n))
    decreases n
  {
    if n > 0 {
      ZerosArePairs(n - 1);
      assert Silent(n)[..n - 1] == Silent(n - 1);
      assert Zeros(2 * n) == Zeros(2 * (n - 1)) + [0, 0];
    }
  }

  lemma {:induction false} DropPairs(ps: seq<Pair>, k: nat)
    requires k <= |ps|
    ensures Interleave(ps)[2 * k..] == Interleave(ps[k..])
    decreases k
  {
    InterleaveAppends(ps[..k], ps[k..]);
    assert ps[..k] + ps[k..] == ps;
  }

  // ---- Runs of the queue ----

  datatype Fate = Played | Dropped

  /** The queue, with everything ever enqueued, what became of each removed pair, and the frames sent out. */
  datatype Tape = Tape(queue: seq<i16>, enqueued: seq<Pair>, fates: seq<Fate>, sent: seq<Frame>, primed: nat,
                       produced: nat)

  datatype Frame = Sound(pair: Pair) | Gap

  /** One critical section; `Contended` is a callback that finds the lock taken. */
  datatype Step = Prime | Extend(chunk: seq<Pair>) | Callback(frames: nat) | Contended(frames: nat)

  function Repeat(f: Fate, n: nat): seq<Fate> { seq(n, i => f) }
  function Gaps(n: nat): seq<Frame> { seq(n, i => Gap) }

  function Sounds(ps: seq<Pair>): seq<Frame> { seq(|ps|, i requires 0 <= i < |ps| => Sound(ps[i])) }

  function PrimeStep(t: Tape, m: Marks): Tape {
    if t.queue == []
    then t.(queue := Primed(t.queue, m.low), enqueued := t.enqueued + Silent(m.low / 2), primed := t.primed + m.low / 2)
    else t
  }

  function ExtendStep(t: Tape, m: Marks, chunk: seq<Pair>): Tape {
    var full := t.queue + Interleave(chunk);
    var q := Trimmed(full, m.high, m.low);
    t.(queue := q, enqueued := t.enqueued + chunk, produced := t.produced + |chunk|,
       fates := t.fates + Repeat(Dropped, (|full| - |q|) / 2))
  }

  function CallbackStep(t: Tape, frames: nat): Tape {
    var (ps, q) := PopFrames(t.queue, frames);
    var n := Min(frames, |t.queue| / 2);
    t.(queue := q, fates := t.fates + Repeat(Played, n), sent := t.sent + Sounds(ps[..n]) + Gaps(frames - n))
  }

  function Do(t: Tape, m: Marks, s: Step): Tape {
    match s
    case Prime => PrimeStep(t, m)
    case Extend(chunk) => ExtendStep(t, m, chunk)
    case Callback(frames) => CallbackStep(t, frames)
    case Contended(frames) => t.(sent := t.sent + Gaps(frames))
  }

  function DoAll(t: Tape, m: Marks, steps: seq<Step>): Tape
    decreases steps
  {
    if steps == [] then t else DoAll(Do(t, m, steps[0]), m, steps[1..])
  }

  /** The pairs that were played, in the order they were enqueued. */
  function PlayedOf(ps: seq<Pair>, fates: seq<Fate>): seq<Pair>
    requires |fates| <= |ps|
    decreases fates
  {
    if fates == [] then []
    else
      var n := |fates| - 1;
      PlayedOf(ps, fates[..n]) + if fates[n].Played? then [ps[n]] else []
  }

  function Heard(sent: seq<Frame>): seq<Pair>
    decreases sent
  {
    if sent == [] then []
    else
      var n := |sent| - 1;
      Heard(sent[..n]) + if sent[n].Sound? then [sent[n].pair] else []
  }

  function CountOf(fates: seq<Fate>, f: Fate): nat
    decreases fates
  {
    if fates == [] then 0 else CountOf(fates[..|fates| - 1], f) + if fates[|fates| - 1] == f then 1 else 0
  }

  predicate Sane(t: Tape) {
    && |t.fates| <= |t.enqueued|
    && t.queue == Interleave(t.enqueued[|t.fates|..])
    && Heard(t.sent) == PlayedOf(t.enqueued, t.fates)
    && |t.enqueued| == t.primed + t.produced
  }

  // ---- History lemmas ----

  lemma {:induction false} PlayedGrows(ps: seq<Pair>, more: seq<Pair>, fates: seq<Fate>)
    requires |fates| <= |ps|
    ensures PlayedOf(ps + more, fates) == PlayedOf(ps, fates)
    decreases fates
  {
    if fates != [] { PlayedGrows(ps, more, fates[..|fates| - 1]); }
  }

  lemma {:induction false} PlayedDropped(ps: seq<Pair>, fates: seq<Fate>, n: nat)
    requires |fates| + n <= |ps|
    ensures PlayedOf(ps, fates + Repeat(Dropped, n)) == PlayedOf(ps, fates)
    decreases n
  {
    if n == 0 {
      assert fates + Repeat(Dropped, 0) == fates;
    } else {
      PlayedDropped(ps, fates, n - 1);
      assert (fates + Repeat(Dropped, n))[..|fates| + n - 1] == fates + Repeat(Dropped, n - 1);
    }
  }

  lemma {:induction false} PlayedMore(ps: seq<Pair>, fates: seq<Fate>, n: nat)
    requires |fates| + n <= |ps|
    ensures PlayedOf(ps, fates + Repeat(Played, n)) == PlayedOf(ps, fates) + ps[|fates|..|fates| + n]
    decreases n
  {
    if n == 0 {
      assert fates + Repeat(Played, 0) == fates;
      assert PlayedOf(ps, fates) + ps[|fates|..|fates|] == PlayedOf(ps, fates);
    } else {
      PlayedMore(ps, fates, n - 1);
      var k := |fates| + n - 1;
      assert (fates + Repeat(Played, n))[..k] == fates + Repeat(Played, n - 1);
      assert ps[|fates|..k + 1] == ps[|fates|..k] + [ps[k]];
    }
  }

  lemma {:induction false} HeardSounds(sent: seq<Frame>, ps: seq<Pair>)
    ensures Heard(sent + Sounds(ps)) == Heard(sent) + ps
    decreases ps
  {
    if ps == [] {
      assert sent + Sounds(ps) == sent && Heard(sent) + ps == Heard(sent);
    } else {
      var head, p := ps[..|ps| - 1], ps[|ps| - 1];
      HeardSounds(sent, head);
      assert (sent + Sounds(ps))[..|sent| + |head|] == sent + Sounds(head);
      assert Heard(sent) + head + [p] == Heard(sent) + ps;
    }
  }

  lemma {:induction false} HeardGaps(sent: seq<Frame>, n: nat)
    ensures Heard(sent + Gaps(n)) == Heard(sent)
    decreases n
  {
    if n == 0 {
      assert sent + Gaps(0) == sent;
    } else {
      HeardGaps(sent, n - 1);
      assert (sent + Gaps(n))[..|sent| + n - 1] == sent + Gaps(n - 1);
    }
  }

  // ---- Each critical section ----

  lemma PrimeKeeps(t: Tape, m: Marks)
    requires Sane(t) && GoodMarks(m)
    ensures Sane(PrimeStep(t, m))
  {
    hide PlayedOf, Heard;
    if t.queue == [] {
      var more := Silent(m.low / 2);
      ZerosArePairs(m.low / 2);
      PlayedGrows(t.enqueued, more, t.fates);
      assert |t.fates| == |t.enqueued|;
      assert (t.enqueued + more)[|t.fates|..] == more;
    }
  }

  lemma ExtendKeeps(t: Tape, m: Marks, chunk: seq<Pair>)
    requires Sane(t) && GoodMarks(m)
    ensures Sane(ExtendStep(t, m, chunk)) && |ExtendStep(t, m, chunk).queue| <= m.high
  {
    hide Interleave, PlayedOf, Heard;
    var waiting := t.enqueued[|t.fates|..];
    var all := t.enqueued + chunk;
    InterleaveAppends(waiting, chunk);
    assert waiting + chunk == all[|t.fates|..];
    PlayedGrows(t.enqueued, chunk, t.fates);
    var full := t.queue + Interleave(chunk);
    var gone := (|full| - |Trimmed(full, m.high, m.low)|) / 2;
    DropPairs(waiting + chunk, gone);
    assert all[|t.fates|..][gone..] == all[|t.fates| + gone..];
    PlayedDropped(all, t.fates, gone);
    if |full| <= m.high { assert Trimmed(full, m.high, m.low) == full[2 * gone..]; }
  }

  lemma CallbackKeeps(t: Tape, frames: nat)
    requires Sane(t)
    ensures Sane(CallbackStep(t, frames))
  {
    hide Interleave, PlayedOf, Heard, PopFrames, Silent, Sounds;
    var waiting := t.enqueued[|t.fates|..];
    var n := Min(frames, |waiting|);
    PoppedPairs(waiting, frames);
    var ps := PopFrames(t.queue, frames).0;
    assert ps[..n] == waiting[..n] == t.enqueued[|t.fates|..|t.fates| + n];
    PlayedMore(t.enqueued, t.fates, n);
    HeardSounds(t.sent, ps[..n]);
    HeardGaps(t.sent + Sounds(ps[..n]), frames - n);
    assert waiting[n..] == t.enqueued[|t.fates| + n..];
  }

  lemma DoKeeps(t: Tape, m: Marks, s: Step)
    requires Sane(t) && GoodMarks(m)
    ensures Sane(Do(t, m, s))
  {
    match s {
      case Prime => PrimeKeeps(t, m);
      case Extend(chunk) => ExtendKeeps(t, m, chunk);
      case Callback(frames) => CallbackKeeps(t, frames);
      case Contended(frames) => HeardGaps(t.sent, frames);
    }
  }

  lemma {:induction false} CountsAddUp(fates: seq<Fate>)
    ensures CountOf(fates, Played) + CountOf(fates, Dropped) == |fates|
    decreases fates
  {
    if fates != [] { CountsAddUp(fates[..|fates| - 1]); }
  }

  function Opened(m: Marks): Tape {
    Tape(Zeros(m.low), Silent(m.low / 2), [], [], m.low / 2, 0)
  }

  lemma OpenedSane(m: Marks)
    requires GoodMarks(m)
    ensures Sane(Opened(m))
  {
    ZerosArePairs(m.low / 2);
    assert Silent(m.low / 2)[0..] == Silent(m.low / 2);
  }

  lemma {:induction false} RunKeeps(t: Tape, m: Marks, steps: seq<Step>)
    requires Sane(t) && GoodMarks(m)
    ensures Sane(DoAll(t, m, steps))
    decreases steps
  {
    hide Sane, Do;
    if steps != [] {
      DoKeeps(t, m, steps[0]);
      RunKeeps(Do(t, m, steps[0]), m, steps[1..]);
    }
  }

  /**
   Queue safety over every interleaving of priming, extending and callbacks, contended or not: the
   queue holds whole pairs in order, what was heard is what was enqueued less the dropped runs, and
   every pair enqueued was played, dropped or is still queued.
   */
  lemma QueueSafety(m: Marks, steps: seq<Step>)
    requires GoodMarks(m)
    ensures var t := DoAll(Opened(m), m, steps);
            && |t.fates| <= |t.enqueued| && t.queue == Interleave(t.enqueued[|t.fates|..])
            && Heard(t.sent) == PlayedOf(t.enqueued, t.fates)
            && t.primed + t.produced == CountOf(t.fates, Played) + CountOf(t.fates, Dropped) + |t.queue| / 2
  {
    OpenedSane(m);
    RunKeeps(Opened(m), m, steps);
    CountsAddUp(DoAll(Opened(m), m, steps).fates);
  }

  /** After every extend section the queue is within the high watermark, whatever came before. */
  lemma DepthBounded(m: Marks, steps: seq<Step>, chunk: seq<Pair>)
    requires GoodMarks(m)
    ensures |ExtendStep(DoAll(Opened(m), m, steps), m, chunk).queue| <= m.high
  {
    OpenedSane(m);
    RunKeeps(Opened(m), m, steps);
    ExtendKeeps(DoAll(Opened(m), m, steps), m, chunk);
  }
}
