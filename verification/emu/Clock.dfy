/**
 The master clock and the H/V timer interrupt it drives.

 `fired` is instrumentation: the targets at which the timer raised the interrupt, oldest first.
 Nothing reads it back.
 */
module Clock {
  import opened Timing

  datatype Clock = Clock(
    frame: nat,
    total: u64,
    irqFlag: bool,
    target: Option<nat>,
    nmitimen: byte,
    htime: nat,
    vtime: nat,
    line: nat,
    fired: seq<nat>)
  {
    predicate HIrq() { Bit(nmitimen, 4) }
    predicate VIrq() { Bit(nmitimen, 5) }
    /** Offset of the H position from the start of its line. */
    function HOffset(): nat { htime * 4 + 14 }
  }

  function NextHIrqTarget(c: Clock): Option<nat> {
    if c.htime >= 340 || c.line + 1 >= LINES_PER_FRAME then None
    else Some((c.line + 1) * MCLK_PER_LINE + c.HOffset())
  }

  /** Some target lies in the half-open span (frame, frame + n]. */
  predicate Crosses(c: Clock, n: nat) {
    c.target.Some? && c.frame < c.target.value <= c.frame + n
  }

  function AddMclk(c: Clock, n: nat): Clock {
    var moved := c.(frame := c.frame + n, total := (c.total + n) % TOTAL_RANGE);
    if Crosses(c, n) then
      moved.(irqFlag := true,
             target := if c.HIrq() && !c.VIrq() then NextHIrqTarget(c) else None,
             fired := c.fired + [c.target.value])
    else moved
  }

  function RecomputeIrqTarget(c: Clock): Clock {
    c.(target := FreshTarget(c))
  }

  function FreshTarget(c: Clock): Option<nat> {
    if !c.HIrq() && !c.VIrq() then None
    else if c.htime >= 340 && c.HIrq() then None
    else if c.vtime >= LINES_PER_FRAME && c.VIrq() then None
    else if c.HIrq() && !c.VIrq() then
      var candidate := c.line * MCLK_PER_LINE + c.HOffset();
      if candidate > c.frame then Some(candidate) else NextHIrqTarget(c)
    else
      var target := c.vtime * MCLK_PER_LINE + (if c.HIrq() then c.HOffset() else 10);
      if target > c.frame then Some(target) else None
  }

  /** A whole list of increments, one `AddMclk` each. */
  function Ticks(c: Clock, incs: seq<nat>): Clock
    decreases incs
  {
    if incs == [] then c else Ticks(AddMclk(c, incs[0]), incs[1..])
  }

  function Sum(incs: seq<nat>): nat {
    if incs == [] then 0 else incs[0] + Sum(incs[1..])
  }

  /** The clock without its firing history. */
  function Observable(c: Clock): Clock { c.(fired := []) }

  // ---- Clock advance is a monoid action ----

  lemma AddMclkCompose(c: Clock, a: nat, b: nat)
    ensures Observable(AddMclk(AddMclk(c, a), b)) == Observable(AddMclk(c, a + b))
  {
    assert ((c.total + a) % TOTAL_RANGE + b) % TOTAL_RANGE == (c.total + (a + b)) % TOTAL_RANGE;
  }

  lemma AddMclkObservable(c: Clock, d: Clock, n: nat)
    requires Observable(c) == Observable(d)
    ensures Observable(AddMclk(c, n)) == Observable(AddMclk(d, n))
  {
    assert c == d.(fired := c.fired);
  }

  /** Splitting a span of time into increments never changes what the clock shows at its end. */
  lemma {:induction false} PartitionInvariance(c: Clock, incs: seq<nat>)
    ensures Observable(Ticks(c, incs)) == Observable(AddMclk(c, Sum(incs)))
    decreases incs
  {
    if incs != [] {
      PartitionInvariance(AddMclk(c, incs[0]), incs[1..]);
      AddMclkCompose(c, incs[0], Sum(incs[1..]));
    }
  }

  lemma {:induction false} TicksAppend(c: Clock, a: seq<nat>, b: seq<nat>)
    ensures Ticks(c, a + b) == Ticks(Ticks(c, a), b)
    ensures Sum(a + b) == Sum(a) + Sum(b)
    decreases a
  {
    if a == [] {
      assert a + b == b;
    } else {
      assert (a + b)[1..] == a[1..] + b;
      TicksAppend(AddMclk(c, a[0]), a[1..], b);
    }
  }
}
