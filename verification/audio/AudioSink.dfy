/** The sink's two producer sections around the resampler, and the device callback filling its buffer. */
module Sink {
  import opened Resample
  import opened ResamplerObject
  import opened PlayQueue

  // ---- Rate control ----

  function ClampUnit(x: real): real { if x < -1.0 then -1.0 else if x > 1.0 then 1.0 else x }

  /** Below the target depth the scale drops, so more is emitted per input. */
  function RateScale(depth: nat, target: nat): real
    requires target > 0
  {
    1.0 - ClampUnit((target as real - depth as real) / target as real) * MAX_RATE_SLEW
  }

  /** The closed loop stays within the slew by itself: the clamp behind it never acts. */
  lemma SlewWithinClamp(depth: nat, target: nat)
    requires target > 0
    ensures ClampScale(RateScale(depth, target)) == RateScale(depth, target)
    ensures depth < target ==> RateScale(depth, target) < 1.0
    ensures depth > target ==> RateScale(depth, target) > 1.0
    ensures depth == target ==> RateScale(depth, target) == 1.0
  {
    var error := (target as real - depth as real) / target as real;
    assert error * target as real == target as real - depth as real;
    assert error > 0.0 <==> depth < target;
    assert error < 0.0 <==> depth > target;
  }

  // ---- The device buffer ----

  function Channel(p: Pair, c: nat, muted: bool): i16 {
    if muted || c > 1 then 0 else if c == 0 then p.l else p.r
  }

  /** The first two channels carry the pair, any further ones nothing; a cut frame drops the right channel. */
  function FrameOut(p: Pair, width: nat, muted: bool): (s: seq<i16>)
    ensures |s| == width
  {
    seq(width, c requires 0 <= c < width => Channel(p, c, muted))
  }

  function Render(q: seq<i16>, len: nat, channels: nat, muted: bool): (r: (seq<i16>, seq<i16>))
    requires channels > 0
    ensures |r.0| == len
    decreases len
  {
    if len == 0 then ([], q)
    else
      var w := Min(channels, len);
      var (p, q1) := PopFrame(q);
      var (rest, q2) := Render(q1, len - w, channels, muted);
      (FrameOut(p, w, muted) + rest, q2)
  }

  function FrameCount(len: nat, channels: nat): nat
    requires channels > 0
    decreases len
  {
    if len == 0 then 0 else 1 + FrameCount(len - Min(channels, len), channels)
  }

  /** A filled buffer takes exactly its frames off the queue, muted or not. */
  lemma {:induction false} RenderPops(q: seq<i16>, len: nat, channels: nat, muted: bool)
    requires channels > 0
    ensures Render(q, len, channels, muted).1 == PopFrames(q, FrameCount(len, channels)).1
    decreases len
  {
    if len > 0 {
      RenderPops(PopFrame(q).1, len - Min(channels, len), channels, muted);
    }
  }

  /** The sample `j` places from the front of the queue; 0 past its end. */
  function Queued(q: seq<i16>, j: nat): i16 { if j < |q| then q[j] else 0 }

  /**
   What a filled buffer holds at channel `c` of its frame `k`: the first two channels take the queue's
   samples in order, the further ones are 0, and a muted buffer is 0 everywhere.
   */
  lemma {:induction false} RenderedSample(q: seq<i16>, len: nat, channels: nat, muted: bool, k: nat, c: nat)
    requires c < channels && k * channels + c < len
    ensures Render(q, len, channels, muted).0[k * channels + c] == if muted || c > 1 then 0 else Queued(q, 2 * k + c)
    decreases k
  {
    hide Render, Channel;
    var next := PopFrame(q);
    RenderFront(q, len, channels, muted);
    if k == 0 {
      ChannelOf(next.0, c, muted);
    } else {
      assert k * channels == (k - 1) * channels + channels && (k - 1) * channels >= 0;
      RenderedSample(next.1, len - channels, channels, muted, k - 1, c);
    }
  }

  lemma ChannelOf(p: Pair, c: nat, muted: bool)
    ensures Channel(p, c, muted) == if muted || c > 1 then 0 else [p.l, p.r][c]
  {
  }

  lemma RenderFront(q: seq<i16>, len: nat, channels: nat, muted: bool)
    requires 0 < len && 0 < channels
    ensures var w, next := Min(channels, len), PopFrame(q);
            Render(q, len, channels, muted).0
            == FrameOut(next.0, w, muted) + Render(next.1, len - w, channels, muted).0
  {
    hide FrameOut, PopFrame;
  }

  /** One frame of the buffer, then the rest from what is left of the queue. */
  lemma RenderNext(done: seq<i16>, q: seq<i16>, len: nat, channels: nat, muted: bool)
    requires channels > 0 && len > 0
    ensures var w, next := Min(channels, len), PopFrame(q);
            && done + Render(q, len, channels, muted).0
               == (done + FrameOut(next.0, w, muted)) + Render(next.1, len - w, channels, muted).0
            && Render(q, len, channels, muted).1 == Render(next.1, len - w, channels, muted).1
  {
    hide PopFrame, FrameOut;
    var w, next := Min(channels, len), PopFrame(q);
    var frame, later := FrameOut(next.0, w, muted), Render(next.1, len - w, channels, muted).0;
    assert done + (frame + later) == done + frame + later;
  }

  lemma RenderNothing(q: seq<i16>, channels: nat, muted: bool)
    requires channels > 0
    ensures Render(q, 0, channels, muted) == ([], q)
  {
  }

  class AudioSink {
    const resampler: Resampler
    const marks: Marks
    var queue: seq<i16>
    var muted: bool
    var reprimes: nat
    var watermarkDrops: nat

    constructor (sampleRate: nat, deviceRate: nat)
      requires sampleRate > 0 && deviceRate >= 1000
      ensures fresh(resampler) && GoodMarks(marks) && Ready()
      ensures queue == Opened(marks).queue
    {
      resampler := new Resampler(sampleRate, deviceRate);
      marks := DeviceMarks(deviceRate);
      MarksGood(deviceRate);
      queue := Zeros(DeviceMarks(deviceRate).low);
      muted, reprimes, watermarkDrops := false, 0, 0;
    }

    predicate Ready()
      reads resampler
    {
      GoodMarks(marks) && Valid(resampler.Now())
    }

    /** First section: read the depth and refill a drained queue in one step. */
    method PrimeQueue() returns (depth: nat, reprimed: bool)
      modifies this`queue
      ensures queue == Primed(old(queue), marks.low) && depth == |queue|
      ensures reprimed <==> old(queue) == []
    {
      reprimed := queue == [];
      if reprimed { queue := queue + Zeros(marks.low); }
      depth := |queue|;
    }

    /** Second section: extend, then drop the oldest samples one by one when over the watermark. */
    method ExtendQueue(more: seq<i16>) returns (dropped: nat)
      modifies this`queue
      ensures queue == Trimmed(old(queue) + more, marks.high, marks.low)
      ensures dropped == |old(queue)| + |more| - |queue|
    {
      queue := queue + more;
      if |queue| <= marks.high { return 0; }
      ghost var full := queue;
      dropped := |queue| - Min(marks.low, |queue|);
      for i := 0 to dropped
        invariant i <= |full| && queue == full[i..]
      {
        queue := queue[1..];
      }
    }

    method Push(samples: seq<i16>)
      requires Ready()
      modifies this`queue, this`reprimes, this`watermarkDrops, resampler
      ensures Ready()
      ensures var scaled := old(resampler.Now()).(ratio := resampler.ratio);
              var (after, out) := Resample.Push(scaled, Pairs(samples));
              && resampler.ratio == resampler.baseRatio * RateScale(|Primed(old(queue), marks.low)|, marks.low)
              && resampler.Now() == after
              && queue == (if out == [] then Primed(old(queue), marks.low)
                           else Trimmed(Primed(old(queue), marks.low) + Interleave(out), marks.high, marks.low))
              && watermarkDrops == old(watermarkDrops)
                   + (if out != [] && |Primed(old(queue), marks.low)| + 2 * |out| > marks.high then 1 else 0)
      ensures reprimes == old(reprimes) + (if old(queue) == [] then 1 else 0)
    {
      hide Resample.Push, Primed, RateScale, ClampScale;
      var depth, reprimed := PrimeQueue();
      if reprimed { reprimes := reprimes + 1; }
      SlewWithinClamp(depth, marks.low);
      resampler.SetRateScale(RateScale(depth, marks.low));
      ghost var scaled := resampler.Now();
      PushValid(scaled, Pairs(samples));
      var scratch := resampler.Push(samples, []);
      assert scratch == Interleave(Resample.Push(scaled, Pairs(samples)).1);
      if scratch == [] { return; }
      var dropped := ExtendQueue(scratch);
      if dropped > 0 { watermarkDrops := watermarkDrops + 1; }
    }

    /** The callback: silence when the lock is taken, otherwise frame by frame from the queue. */
    method FillI16(data: array<i16>, channels: nat, contended: bool)
      requires channels > 0
      modifies this`queue, data
      ensures if contended then queue == old(queue) && data[..] == Zeros(data.Length)
              else (data[..], queue) == Render(old(queue), data.Length, channels, muted)
    {
      hide Render;
      if contended {
        FillSilence(data);
      } else {
        FillFrames(data, channels);
      }
    }

    method FillSilence(data: array<i16>)
      modifies data
      ensures data[..] == Zeros(data.Length)
    {
      for i := 0 to data.Length
        invariant forall k :: 0 <= k < i ==> data[k] == 0
      {
        data[i] := 0;
      }
    }

    method FillFrames(data: array<i16>, channels: nat)
      requires channels > 0
      modifies this`queue, data
      ensures (data[..], queue) == Render(old(queue), data.Length, channels, muted)
    {
      hide Render, PopFrame, FrameOut;
      ghost var goal := Render(queue, data.Length, channels, muted);
      var at := 0;
      assert data[..0] + goal.0 == goal.0;
      while at < data.Length
        invariant at <= data.Length
        invariant data[..at] + Render(queue, data.Length - at, channels, muted).0 == goal.0
        invariant Render(queue, data.Length - at, channels, muted).1 == goal.1
      {
        var w := Min(channels, data.Length - at);
        ghost var done := data[..at];
        RenderNext(done, queue, data.Length - at, channels, muted);
        var (p, rest) := PopFrame(queue);
        queue := rest;
        WriteFrame(data, at, w, p);
        assert data[..at + w] == done + FrameOut(p, w, muted);
        at := at + w;
      }
      RenderNothing(queue, channels, muted);
      assert data[..at] == data[..] && data[..] + [] == data[..];
    }

    method WriteFrame(data: array<i16>, at: nat, w: nat, p: Pair)
      requires at + w <= data.Length
      modifies data
      ensures data[..at] == old(data[..at]) && data[at..at + w] == FrameOut(p, w, muted)
    {
      for c := 0 to w
        invariant forall k :: 0 <= k < at ==> data[k] == old(data[k])
        invariant forall k :: 0 <= k < c ==> data[at + k] == FrameOut(p, w, muted)[k]
      {
        data[at + c] := Channel(p, c, muted);
      }
    }
  }
}
