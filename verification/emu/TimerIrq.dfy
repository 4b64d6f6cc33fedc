/** When, in a frame whose program leaves the timer registers alone, the H/V timer interrupts. */
module TimerIrq {
  import opened Timing
  import opened Clock
  import opened Memory
  import opened BusOps
  import opened BusTime
  import opened Frame
  import opened Idling
  import opened Overrun

  predicate QuietAction(a: CpuAction) {
    a.Instruction? ==> !WritesTimer(a.first) && forall op :: op in a.rest ==> !WritesTimer(op)
  }

  /** The CPU steps `from..to` leave the timer registers alone; nothing is asked of any other step. */
  ghost predicate QuietBetween(script: Script, from: nat, to: nat) {
    forall at: nat :: from <= at < to ==> QuietAction(script(at))
  }

  /** The steps a frame executes. */
  ghost predicate QuietFrame(e: Env, c: CoreState, script: Script) {
    QuietBetween(script, c.at, RunOneFrame(e, c, script).at)
  }

  lemma LineWithin(e: Env, b: Bus, script: Script, at: nat, line: nat)
    requires line < LINES_PER_FRAME && !RunLine(e, b, script, at, line).0.Faulted()
    requires QuietBetween(script, at, RunLines(e, b, script, at, line).1)
    ensures var (b1, at1) := RunLine(e, b, script, at, line);
            && QuietBetween(script, at, at1)
            && QuietBetween(script, at1, RunLines(e, b1, script, at1, line + 1).1)
  {
    hide RunLine, QuietAction;
    var (b1, at1) := RunLine(e, b, script, at, line);
    LineMovesOn(e, b, script, at, line);
    LinesMoveOn(e, b1, script, at1, line + 1);
  }

  // ---- A quiet CPU only ticks the clock ----

  lemma {:induction false} StepsTick(e: Env, b: Bus, ops: seq<BusOp>) returns (incs: seq<nat>)
    requires forall op :: op in ops ==> !WritesTimer(op)
    ensures NoFlag(Steps(e, b, ops).clk) == NoFlag(Ticks(b.clk, incs)) && Short(incs)
    decreases ops
  {
    hide Step, Ticks, AddMclk, NoFlag, WritesTimer;
    if ops == [] {
      incs := [];
      TicksNone(b.clk);
    } else {
      var first := StepTicks(e, b, ops[0]);
      var b1 := Step(e, b, ops[0]);
      var rest := StepsTick(e, b1, ops[1..]);
      NoFlagTicks(b1.clk, Ticks(b.clk, first), rest);
      TicksAppend(b.clk, first, rest);
      incs := first + rest;
    }
  }

  lemma TicksNone(c: Clock)
    ensures Ticks(c, []) == c
  {
  }

  lemma ExecuteTicks(e: Env, b: Bus, a: CpuAction) returns (incs: seq<nat>)
    requires a.Instruction? && QuietAction(a)
    ensures NoFlag(Execute(e, b, a).clk) == NoFlag(Ticks(b.clk, incs)) && Short(incs)
  {
    incs := StepsTick(e, if a.takesNmi then b.(nmiPending := false) else b, [a.first] + a.rest);
  }

  lemma {:induction false} CpuTicks(e: Env, b: Bus, script: Script, at: nat, target: nat) returns (incs: seq<nat>)
    requires QuietBetween(script, at, RunCpu(e, b, script, at, target).1)
    ensures NoFlag(RunCpu(e, b, script, at, target).0.clk) == NoFlag(Ticks(b.clk, incs)) && Short(incs)
    decreases if b.clk.frame < target then target - b.clk.frame else 0
  {
    hide Execute, Ticks, NoFlag, QuietAction;
    if b.clk.frame >= target || b.Faulted() || script(at).Stopped? {
      incs := [];
      TicksNone(b.clk);
    } else {
      var b1 := Execute(e, b, script(at));
      ExecuteAdvances(e, b, script(at));
      CpuMovesOn(e, b1, script, at + 1, target);
      var first := ExecuteTicks(e, b, script(at));
      var rest := CpuTicks(e, b1, script, at + 1, target);
      NoFlagTicks(b1.clk, Ticks(b.clk, first), rest);
      TicksAppend(b.clk, first, rest);
      incs := first + rest;
    }
  }

  /** One fault-free line: the line hook, then ticks up to at least the line's end. */
  lemma LineTicks(e: Env, b: Bus, script: Script, at: nat, line: nat) returns (incs: seq<nat>)
    requires QuietBetween(script, at, RunLine(e, b, script, at, line).1) && !RunLine(e, b, script, at, line).0.Faulted()
    ensures var c := RunLine(e, b, script, at, line).0.clk;
            && NoFlag(c) == NoFlag(Ticks(LineClock(b.clk, line), incs)) && Short(incs)
            && c.frame >= (line + 1) * MCLK_PER_LINE
  {
    hide OpenLine, LineHdma, CloseFrameLine, RunCpu, Ticks, NoFlag, LineClock;
    var b1 := LineHdma(e, OpenLine(e, b, line), line);
    OpenLineTime(e, b, line);
    incs := CpuTicks(e, b1, script, at, (line + 1) * MCLK_PER_LINE);
    CloseLineTime(e, RunCpu(e, b1, script, at, (line + 1) * MCLK_PER_LINE).0, line);
    var n := LineTime(e, b, script, at, line);
  }

  // ---- One-shot modes: V, and H+V ----

  predicate OneShot(c: Clock) { c.VIrq() }

  /** Where the one-shot timer points, when it points inside the frame. */
  function OneShotTarget(c: Clock): Option<nat> {
    if c.vtime >= LINES_PER_FRAME || (c.HIrq() && c.htime >= 340) then None
    else Some(c.vtime * MCLK_PER_LINE + (if c.HIrq() then c.HOffset() else 10))
  }

  /** Where that is: at the H position of line VTIME, or, without H, ten clocks into the line. */
  lemma OneShotPosition(c: Clock)
    ensures var withH := c.nmitimen / 0x10 % 2 == 1;
            OneShotTarget(c) == if c.vtime >= 262 || (withH && c.htime >= 340) then None
                                else Some(1364 * c.vtime + (if withH then 4 * c.htime + 14 else 10))
    ensures OneShot(c) <==> c.nmitimen / 0x20 % 2 == 1
  {
  }

  /** An armed one-shot fires when its target is passed, once, and is then disarmed. */
  lemma {:induction false} OneShotTicks(c: Clock, incs: seq<nat>)
    requires OneShot(c) && (c.target.Some? ==> c.frame < c.target.value)
    ensures var d := Ticks(c, incs);
            if c.target.Some? && c.target.value <= d.frame
            then d.target == None && d.fired == c.fired + [c.target.value]
            else d.target == c.target && d.fired == c.fired
    decreases incs
  {
    hide Bit, NextHIrqTarget;
    if incs != [] {
      TicksTime(AddMclk(c, incs[0]), incs[1..]);
      OneShotTicks(AddMclk(c, incs[0]), incs[1..]);
    }
  }

  predicate SameTimer(c: Clock, d: Clock) {
    c.nmitimen == d.nmitimen && c.htime == d.htime && c.vtime == d.vtime
  }

  predicate Later(c: Clock, d: Clock, t: Option<nat>, fired: seq<nat>) {
    if t.Some? && t.value <= d.frame then d.target == None && d.fired == fired + [t.value]
    else d.target == t && d.fired == fired
  }

  lemma OneShotLine(e: Env, b: Bus, script: Script, at: nat, line: nat, t: Option<nat>, fired: seq<nat>)
    requires line > 0 && OneShot(b.clk) && QuietBetween(script, at, RunLine(e, b, script, at, line).1)
             && !RunLine(e, b, script, at, line).0.Faulted()
    requires Later(b.clk, b.clk, t, fired)
    ensures var c := RunLine(e, b, script, at, line).0.clk;
            SameTimer(b.clk, c) && Later(b.clk, c, t, fired)
  {
    hide RunLine, Bit;
    var incs := LineTicks(e, b, script, at, line);
    OneShotTicks(LineClock(b.clk, line), incs);
    TicksTime(LineClock(b.clk, line), incs);
  }

  lemma {:induction false} OneShotLines(e: Env, b: Bus, script: Script, at: nat, line: nat, t: Option<nat>,
      fired: seq<nat>)
    requires 0 < line <= LINES_PER_FRAME && OneShot(b.clk)
             && QuietBetween(script, at, RunLines(e, b, script, at, line).1)
    requires !RunLines(e, b, script, at, line).0.Faulted()
    requires Later(b.clk, b.clk, t, fired)
    ensures Later(b.clk, RunLines(e, b, script, at, line).0.clk, t, fired)
    decreases LINES_PER_FRAME - line
  {
    hide RunLine, Bit;
    if line < LINES_PER_FRAME {
      var (b1, at1) := RunLine(e, b, script, at, line);
      LineWithin(e, b, script, at, line);
      OneShotLine(e, b, script, at, line, t, fired);
      OneShotLines(e, b1, script, at1, line + 1, t, fired);
    }
  }

  lemma OneShotFrame(e: Env, b: Bus, script: Script, at: nat)
    requires OneShot(b.clk) && QuietBetween(script, at, RunLines(e, b, script, at, 0).1)
             && !RunLines(e, b, script, at, 0).0.Faulted()
    ensures Later(b.clk, RunLines(e, b, script, at, 0).0.clk, FreshTarget(b.clk.(line := 0)), b.clk.fired)
  {
    hide RunLine, Bit, FreshTarget, Later;
    var (b1, at1) := RunLine(e, b, script, at, 0);
    LineWithin(e, b, script, at, 0);
    OneShotFirstLine(e, b, script, at);
    LaterRebase(b.clk, b1.clk, FreshTarget(b.clk.(line := 0)), b.clk.fired);
    OneShotLines(e, b1, script, at1, 1, FreshTarget(b.clk.(line := 0)), b.clk.fired);
    LaterRebase(b1.clk, RunLines(e, b1, script, at1, 1).0.clk, FreshTarget(b.clk.(line := 0)), b.clk.fired);
  }

  lemma LaterRebase(c: Clock, d: Clock, t: Option<nat>, fired: seq<nat>)
    requires Later(c, d, t, fired)
    ensures forall x :: Later(x, d, t, fired)
  {
  }

  /**
   V and H+V mode: in a fault-free frame the timer interrupts exactly once if its position lies
   after the carried-in clock and is reached by the end of the frame, and otherwise not at all.
   */
  lemma OneShotFiresOnce(e: Env, c: CoreState, script: Script)
    requires OneShot(c.bus.clk) && QuietFrame(e, c, script)
    requires !RunOneFrame(e, c, script).bus.Faulted()
    ensures var start := CarryOver(c.bus).clk.frame;
            var end := RunOneFrame(e, c, script).bus.clk;
            var t := OneShotTarget(c.bus.clk);
            end.fired == c.bus.clk.fired + (if t.Some? && start < t.value <= end.frame then [t.value] else [])
  {
    hide RunLines, Bit, FreshTarget, OneShotTarget;
    var b := CarryOver(c.bus);
    OneShotFrame(e, b, script, c.at);
    FrameOnlyMovesOn(e, b, script, c.at);
    OneShotArming(b.clk.(line := 0));
    OneShotTargetLocal(b.clk.(line := 0), c.bus.clk);
  }

  lemma OneShotTargetLocal(c: Clock, d: Clock)
    requires SameTimer(c, d)
    ensures OneShotTarget(c) == OneShotTarget(d)
  {
    hide Bit;
  }

  /** At the start of a frame the one-shot is armed exactly if its position is still ahead. */
  lemma OneShotArming(c: Clock)
    requires OneShot(c)
    ensures var t := OneShotTarget(c);
            FreshTarget(c) == if t.Some? && c.frame < t.value then t else None
  {
    hide Bit;
  }

  lemma OneShotFirstLine(e: Env, b: Bus, script: Script, at: nat)
    requires OneShot(b.clk) && QuietBetween(script, at, RunLine(e, b, script, at, 0).1)
             && !RunLine(e, b, script, at, 0).0.Faulted()
    ensures var c := RunLine(e, b, script, at, 0).0.clk;
            SameTimer(b.clk, c) && Later(b.clk, c, FreshTarget(b.clk.(line := 0)), b.clk.fired)
  {
    hide RunLine, Bit, FreshTarget;
    var start := LineClock(b.clk, 0);
    var incs := LineTicks(e, b, script, at, 0);
    OneShotArming(b.clk.(line := 0));
    OneShotTicks(start, incs);
    TicksTime(start, incs);
  }

  lemma FrameOnlyMovesOn(e: Env, b: Bus, script: Script, at: nat)
    ensures RunLines(e, b, script, at, 0).0.clk.frame >= b.clk.frame
  {
    hide RunLines;
    var n := LinesTime(e, b, script, at, 0);
  }

  // ---- H-only mode ----

  predicate HOnly(c: Clock) { c.HIrq() && !c.VIrq() }

  function HTarget(c: Clock, line: nat): nat { line * MCLK_PER_LINE + c.HOffset() }

  function HTargets(c: Clock, lines: nat): seq<nat> {
    if lines == 0 then [] else HTargets(c, lines - 1) + [HTarget(c, lines - 1)]
  }

  /** The target armed for `line`, if the frame has such a line. */
  function Armed(c: Clock, line: nat): Option<nat> {
    if line < LINES_PER_FRAME then Some(HTarget(c, line)) else None
  }

  /** A timer write in H-only mode arms this line's position if it is still ahead, otherwise the next line's. */
  lemma HOnlyArming(c: Clock)
    requires HOnly(c)
    ensures FreshTarget(c) == if c.htime >= 340 then None
                              else if c.frame < HTarget(c, c.line) then Some(HTarget(c, c.line))
                              else Armed(c, c.line + 1)
    ensures forall l: nat :: HTarget(c, l) == 1364 * l + 4 * c.htime + 14
  {
    hide Bit;
  }

  /** With both enable bits clear nothing is armed. */
  lemma OffArmsNothing(c: Clock)
    requires !c.HIrq() && !c.VIrq()
    ensures FreshTarget(c) == None
  {
    hide Bit;
  }

  /** A target that is absent, behind the clock or still ahead at the end changes nothing. */
  lemma {:induction false} HQuiet(c: Clock, incs: seq<nat>)
    requires c.target.Some? ==> c.target.value <= c.frame || Ticks(c, incs).frame < c.target.value
    ensures Ticks(c, incs).target == c.target && Ticks(c, incs).fired == c.fired
    decreases incs
  {
    hide Bit, NextHIrqTarget;
    TicksTime(c, incs);
    if incs != [] {
      HQuiet(AddMclk(c, incs[0]), incs[1..]);
    }
  }

  /** Ticks across the next line's H position, within this line: it fires, and its target stays behind. */
  lemma {:induction false} HEarly(c: Clock, incs: seq<nat>)
    requires HOnly(c) && c.htime < 340 && c.line + 1 < LINES_PER_FRAME
    requires c.target == Some(HTarget(c, c.line + 1)) && c.frame < c.target.value <= Ticks(c, incs).frame
    ensures Ticks(c, incs).target == c.target && Ticks(c, incs).fired == c.fired + [HTarget(c, c.line + 1)]
    decreases incs
  {
    hide Bit;
    if incs != [] {
      var d := AddMclk(c, incs[0]);
      if Crosses(c, incs[0]) {
        HQuiet(d, incs[1..]);
      } else {
        HEarly(d, incs[1..]);
      }
    }
  }

  lemma ShortParts(incs: seq<nat>)
    requires Short(incs) && incs != []
    ensures incs[0] <= 12 && Short(incs[1..])
  {
    assert incs[0] in incs;
    forall n | n in incs[1..] ensures n <= 12 { assert n in incs; }
  }

  /** Whether the clock, at the end of `line`, is already past the next line's H position. */
  predicate RunsOver(c: Clock, line: nat) { line + 1 < LINES_PER_FRAME && HTarget(c, line + 1) <= c.frame }

  /** Ticks across this line's H position: its interrupt, and the next line's too if that is reached. */
  lemma {:induction false} HTicks(c: Clock, incs: seq<nat>)
    requires HOnly(c) && c.htime < 340 && c.target == Some(HTarget(c, c.line)) && c.frame < c.target.value
    requires c.target.value <= Ticks(c, incs).frame && Short(incs)
    ensures var d := Ticks(c, incs);
            var extra := if RunsOver(d, c.line) then [HTarget(c, c.line + 1)] else [];
            d.target == Armed(c, c.line + 1) && d.fired == c.fired + ([HTarget(c, c.line)] + extra)
    decreases incs
  {
    hide Bit;
    if incs != [] {
      var d := AddMclk(c, incs[0]);
      TicksTime(c, incs);
      assert incs[0] <= 12 && Short(incs[1..]) by { ShortParts(incs); }
      if Crosses(c, incs[0]) {
        assert d.target == Armed(c, c.line + 1) && d.fired == c.fired + [HTarget(c, c.line)];
        if RunsOver(Ticks(c, incs), c.line) {
          HEarly(d, incs[1..]);
        } else {
          HQuiet(d, incs[1..]);
        }
      } else {
        HTicks(d, incs[1..]);
      }
    }
  }

  /**
   A timer write in the middle of a line: in the rest of the line an H-only timer interrupts exactly
   once if the line's position is reached after the write, and otherwise not at all.
   */
  lemma MidLineWrite(c: Clock, incs: seq<nat>)
    requires HOnly(c) && Ticks(RecomputeIrqTarget(c), incs).frame < HTarget(c, c.line + 1) && Short(incs)
    ensures var fires := c.htime < 340 && c.frame < HTarget(c, c.line) <= Ticks(RecomputeIrqTarget(c), incs).frame;
            Ticks(RecomputeIrqTarget(c), incs).fired == c.fired + (if fires then [HTarget(c, c.line)] else [])
  {
    hide Bit, FreshTarget;
    var d := RecomputeIrqTarget(c);
    HOnlyArming(c);
    TicksTime(d, incs);
    if c.htime < 340 && c.frame < HTarget(c, c.line) <= Ticks(d, incs).frame {
      HTicks(d, incs);
    } else {
      HQuiet(d, incs);
    }
  }

  /**
   Every line is left at or past its own H position, and every line but the last is entered before it.
   */
  ghost predicate PunctualLines(e: Env, b: Bus, script: Script, at: nat, line: nat)
    requires line <= LINES_PER_FRAME
    decreases LINES_PER_FRAME - line
  {
    line == LINES_PER_FRAME ||
    (var (b1, at1) := RunLine(e, b, script, at, line);
     && (line + 1 < LINES_PER_FRAME ==> b.clk.frame < HTarget(b.clk, line))
     && HTarget(b.clk, line) <= b1.clk.frame
     && PunctualLines(e, b1, script, at1, line + 1))
  }

  // ---- A position that has been missed ----

  /**
   With `n` interrupts of this frame's before it, position `k` is not the next to come: either the
   position before it is still to be reached, or only later ones can be.
   */
  predicate Missed(c: Clock, n: nat, k: nat) {
    || (k > 0 && |c.fired| + 1 == n && c.target == Some(HTarget(c, k - 1)))
    || (&& |c.fired| >= n && (forall i :: n <= i < |c.fired| ==> c.fired[i] > HTarget(c, k))
        && (c.target.Some? ==> c.target.value <= c.frame || c.target.value > HTarget(c, k)))
  }

  lemma {:induction false} MissedTicks(c: Clock, incs: seq<nat>, n: nat, k: nat)
    requires HOnly(c) && c.htime < 340 && c.line >= k && Missed(c, n, k)
    ensures Missed(Ticks(c, incs), n, k)
    decreases incs
  {
    hide Bit, Missed;
    if incs != [] {
      MissedTick(c, incs[0], n, k);
      TickTotal(c, incs[0]);
      MissedTicks(AddMclk(c, incs[0]), incs[1..], n, k);
    }
  }

  lemma MissedTick(c: Clock, m: nat, n: nat, k: nat)
    requires HOnly(c) && c.htime < 340 && c.line >= k && Missed(c, n, k)
    ensures Missed(AddMclk(c, m), n, k)
  {
    hide Bit;
  }

  lemma MissedSame(c: Clock, d: Clock, n: nat, k: nat)
    requires SameTimer(c, d) && c.fired == d.fired && c.target == d.target && c.frame == d.frame && Missed(c, n, k)
    ensures Missed(d, n, k)
  {
    hide Bit;
  }

  lemma {:induction false} MissedLines(e: Env, b: Bus, script: Script, at: nat, line: nat, n: nat, k: nat)
    requires k <= line <= LINES_PER_FRAME && 0 < line && HOnly(b.clk) && b.clk.htime < 340
    requires QuietBetween(script, at, RunLines(e, b, script, at, line).1)
    requires !RunLines(e, b, script, at, line).0.Faulted() && Missed(b.clk, n, k)
    ensures Missed(RunLines(e, b, script, at, line).0.clk, n, k)
    ensures SameTimer(b.clk, RunLines(e, b, script, at, line).0.clk)
    decreases LINES_PER_FRAME - line
  {
    hide RunLine, Bit, Missed;
    if line < LINES_PER_FRAME {
      var (b1, at1) := RunLine(e, b, script, at, line);
      LineWithin(e, b, script, at, line);
      var incs := LineTicks(e, b, script, at, line);
      var c := LineClock(b.clk, line);
      MissedSame(b.clk, c, n, k);
      MissedTicks(c, incs, n, k);
      TicksTime(c, incs);
      MissedSame(Ticks(c, incs), b1.clk, n, k);
      MissedLines(e, b1, script, at1, line + 1, n, k);
    }
  }

  lemma MissedShows(c: Clock, fired: seq<nat>, k: nat)
    requires k < LINES_PER_FRAME && Missed(c, |fired| + k, k)
    ensures c.fired != fired + HTargets(c, LINES_PER_FRAME)
  {
    HTargetsAt(c, LINES_PER_FRAME, k);
    var all := fired + HTargets(c, LINES_PER_FRAME);
    assert |all| == |fired| + LINES_PER_FRAME && all[|fired| + k] == HTarget(c, k);
  }

  lemma {:induction false} HTargetsAt(c: Clock, n: nat, k: nat)
    requires k < n
    ensures |HTargets(c, n)| == n && HTargets(c, n)[k] == HTarget(c, k)
    decreases n
  {
    HTargetsLength(c, n - 1);
    if k < n - 1 { HTargetsAt(c, n - 1, k); }
  }

  lemma {:induction false} HTargetsLength(c: Clock, n: nat)
    ensures |HTargets(c, n)| == n
    decreases n
  {
    if n > 0 { HTargetsLength(c, n - 1); }
  }

  /** A target left behind the clock stays there: no more interrupts in this frame. */
  lemma {:induction false} StuckLines(e: Env, b: Bus, script: Script, at: nat, line: nat)
    requires 0 < line <= LINES_PER_FRAME && (b.clk.target.Some? ==> b.clk.target.value <= b.clk.frame)
    requires QuietBetween(script, at, RunLines(e, b, script, at, line).1)
    requires !RunLines(e, b, script, at, line).0.Faulted()
    ensures var c := RunLines(e, b, script, at, line).0.clk; c.fired == b.clk.fired && SameTimer(b.clk, c)
    decreases LINES_PER_FRAME - line
  {
    hide RunLine, Bit;
    if line < LINES_PER_FRAME {
      var (b1, at1) := RunLine(e, b, script, at, line);
      LineWithin(e, b, script, at, line);
      var incs := LineTicks(e, b, script, at, line);
      HQuiet(LineClock(b.clk, line), incs);
      TicksTime(LineClock(b.clk, line), incs);
      StuckLines(e, b1, script, at1, line + 1);
    }
  }

  // ---- Line by line ----

  /** Up to date at the start of `line`: every earlier position has fired, and this one is ahead. */
  predicate OnTime(c: Clock, line: nat, fired: seq<nat>) {
    && c.fired == fired + HTargets(c, line) && c.target == Armed(c, line)
    && (line < LINES_PER_FRAME ==> c.frame < HTarget(c, line))
  }

  /** What a line entered on time leaves behind. */
  lemma HLine(e: Env, b: Bus, script: Script, at: nat, line: nat, fired: seq<nat>)
    requires line < LINES_PER_FRAME && HOnly(b.clk) && b.clk.htime < 340
    requires QuietBetween(script, at, RunLine(e, b, script, at, line).1) && !RunLine(e, b, script, at, line).0.Faulted()
    requires b.clk.frame < HTarget(b.clk, line) && (line > 0 ==> b.clk.target == Armed(b.clk, line))
    requires b.clk.fired == fired + HTargets(b.clk, line)
    ensures var c := RunLine(e, b, script, at, line).0.clk;
            && SameTimer(b.clk, c)
            && if c.frame < HTarget(b.clk, line) then
                 c.fired == fired + HTargets(c, line) && c.target == Some(HTarget(c, line))
               else if RunsOver(c, line) then
                 c.fired == fired + HTargets(c, line + 2) && c.target == Some(HTarget(c, line + 1))
               else OnTime(c, line + 1, fired)
  {
    hide RunLine, Bit, HTargets;
    var incs := LineTicks(e, b, script, at, line);
    var start := LineClock(b.clk, line);
    TicksTime(start, incs);
    var c := RunLine(e, b, script, at, line).0.clk;
    if c.frame < HTarget(b.clk, line) {
      HQuiet(start, incs);
      HTargetsLocal(b.clk, c, line);
    } else {
      HTicks(start, incs);
      HTargetsStep(b.clk, c, line, fired);
      HTargetsStep(c, c, line + 1, fired);
      FiredSplits(fired, HTargets(b.clk, line), HTarget(b.clk, line), HTarget(b.clk, line + 1));
    }
  }

  lemma FiredSplits(fired: seq<nat>, before: seq<nat>, x: nat, y: nat)
    ensures fired + before + ([x] + [y]) == fired + before + [x] + [y]
    ensures fired + before + ([x] + []) == fired + before + [x]
  {
  }

  lemma HTargetsStep(c: Clock, d: Clock, line: nat, fired: seq<nat>)
    requires SameTimer(c, d)
    ensures fired + HTargets(c, line) + [HTarget(c, line)] == fired + HTargets(d, line + 1)
  {
    HTargetsLocal(c, d, line);
  }

  lemma {:induction false} HTargetsLocal(c: Clock, d: Clock, n: nat)
    requires SameTimer(c, d)
    ensures HTargets(c, n) == HTargets(d, n)
    decreases n
  {
    if n > 0 { HTargetsLocal(c, d, n - 1); }
  }

  /** The rest of the frame, from the end of a line that was entered on time. */
  lemma AfterLine(e: Env, b: Bus, script: Script, at: nat, line: nat, fired: seq<nat>)
    requires 0 < line <= LINES_PER_FRAME && HOnly(b.clk) && b.clk.htime < 340
    requires QuietBetween(script, at, RunLines(e, b, script, at, line).1)
    requires !RunLines(e, b, script, at, line).0.Faulted()
    requires if b.clk.frame < HTarget(b.clk, line - 1) then
               b.clk.fired == fired + HTargets(b.clk, line - 1) && b.clk.target == Some(HTarget(b.clk, line - 1))
             else
               RunsOver(b.clk, line - 1) && b.clk.fired == fired + HTargets(b.clk, line + 1)
               && b.clk.target == Some(HTarget(b.clk, line))
    ensures var c := RunLines(e, b, script, at, line).0.clk;
            && SameTimer(b.clk, c)
            && (c.fired == fired + HTargets(c, LINES_PER_FRAME)
                <==> b.clk.frame >= HTarget(b.clk, line - 1) && line + 1 == LINES_PER_FRAME)
  {
    hide RunLine, RunLines, Bit, HTargets;
    var c := RunLines(e, b, script, at, line).0.clk;
    HTargetsLength(b.clk, line - 1);
    HTargetsLength(b.clk, line + 1);
    if b.clk.frame < HTarget(b.clk, line - 1) {
      if line < LINES_PER_FRAME {
        MissedLines(e, b, script, at, line, |fired| + line, line);
        MissedShows(c, fired, line);
      } else {
        LastLine(e, b, script, at);
        HTargetsLength(c, LINES_PER_FRAME);
      }
    } else {
      StuckLines(e, b, script, at, line);
      HTargetsLocal(b.clk, c, line + 1);
      HTargetsLength(c, LINES_PER_FRAME);
    }
  }

  lemma LastLine(e: Env, b: Bus, script: Script, at: nat)
    ensures RunLines(e, b, script, at, LINES_PER_FRAME) == (b, at)
  {
  }

  lemma {:induction false} HLines(e: Env, b: Bus, script: Script, at: nat, line: nat, fired: seq<nat>)
    requires line <= LINES_PER_FRAME && HOnly(b.clk) && b.clk.htime < 340
    requires QuietBetween(script, at, RunLines(e, b, script, at, line).1)
    requires !RunLines(e, b, script, at, line).0.Faulted()
    requires line < LINES_PER_FRAME ==> b.clk.frame < HTarget(b.clk, line)
    requires line > 0 ==> b.clk.target == Armed(b.clk, line)
    requires b.clk.fired == fired + HTargets(b.clk, line)
    ensures var c := RunLines(e, b, script, at, line).0.clk;
            && SameTimer(b.clk, c)
            && (c.fired == fired + HTargets(c, LINES_PER_FRAME) <==> PunctualLines(e, b, script, at, line))
    decreases LINES_PER_FRAME - line
  {
    hide RunLine, Bit, HTargets;
    if line < LINES_PER_FRAME {
      var (b1, at1) := RunLine(e, b, script, at, line);
      LineWithin(e, b, script, at, line);
      HLine(e, b, script, at, line, fired);
      if b1.clk.frame < HTarget(b.clk, line) {
        AfterLine(e, b1, script, at1, line + 1, fired);
      } else if RunsOver(b1.clk, line) {
        AfterLine(e, b1, script, at1, line + 1, fired);
        LatePunctual(e, b1, script, at1, line + 1);
      } else {
        HLines(e, b1, script, at1, line + 1, fired);
      }
    }
  }

  /** A line entered past its position spoils the frame, unless it is the last. */
  lemma LatePunctual(e: Env, b: Bus, script: Script, at: nat, line: nat)
    requires line < LINES_PER_FRAME && b.clk.frame >= HTarget(b.clk, line)
    ensures PunctualLines(e, b, script, at, line) <==> line + 1 == LINES_PER_FRAME
  {
    hide RunLine;
    if line + 1 == LINES_PER_FRAME {
      var n := LineTime(e, b, script, at, line);
      var (b1, at1) := RunLine(e, b, script, at, line);
      assert PunctualLines(e, b1, script, at1, LINES_PER_FRAME);
    }
  }

  /** A frame that starts past line 0's position arms line 1's. */
  lemma LateStart(e: Env, b: Bus, script: Script, at: nat)
    requires HOnly(b.clk) && b.clk.htime < 340 && b.clk.frame >= HTarget(b.clk, 0)
    requires QuietBetween(script, at, RunLines(e, b, script, at, 0).1)
    requires !RunLines(e, b, script, at, 0).0.Faulted()
    ensures var c := RunLines(e, b, script, at, 0).0.clk;
            SameTimer(b.clk, c) && c.fired != b.clk.fired + HTargets(c, LINES_PER_FRAME)
  {
    hide RunLine, Bit, Missed;
    var (b1, at1) := RunLine(e, b, script, at, 0);
    LineWithin(e, b, script, at, 0);
    var incs := LineTicks(e, b, script, at, 0);
    var start := LineClock(b.clk, 0);
    LateMissed(b.clk);
    MissedTicks(start, incs, |b.clk.fired|, 0);
    TicksTime(start, incs);
    MissedSame(Ticks(start, incs), b1.clk, |b.clk.fired|, 0);
    MissedLines(e, b1, script, at1, 1, |b.clk.fired|, 0);
    MissedShows(RunLines(e, b1, script, at1, 1).0.clk, b.clk.fired, 0);
  }

  lemma LateMissed(c: Clock)
    requires HOnly(c) && c.htime < 340 && c.frame >= HTarget(c, 0)
    ensures Missed(LineClock(c, 0), |c.fired|, 0)
  {
    hide Bit;
  }

  /**
   H-only mode with HTIME up to 339: in a fault-free frame whose own steps leave the timer registers
   alone, the timer interrupts exactly once on each of the 262 lines, at that line's H position, if
   and only if every line is left at or past that position and every line but the last is entered
   before it.
   */
  lemma HOnlyFiresEveryLine(e: Env, c: CoreState, script: Script)
    requires HOnly(c.bus.clk) && c.bus.clk.htime < 340 && QuietFrame(e, c, script)
    requires !RunOneFrame(e, c, script).bus.Faulted()
    ensures RunOneFrame(e, c, script).bus.clk.fired == c.bus.clk.fired + HTargets(c.bus.clk, LINES_PER_FRAME)
            <==> PunctualLines(e, CarryOver(c.bus), script, c.at, 0)
  {
    hide RunLines, Bit, HTargets, PunctualLines;
    var b := CarryOver(c.bus);
    HFrame(e, b, script, c.at);
    HTargetsLocal(RunLines(e, b, script, c.at, 0).0.clk, c.bus.clk, LINES_PER_FRAME);
  }

  lemma HFrame(e: Env, b: Bus, script: Script, at: nat)
    requires HOnly(b.clk) && b.clk.htime < 340 && QuietBetween(script, at, RunLines(e, b, script, at, 0).1)
    requires !RunLines(e, b, script, at, 0).0.Faulted()
    ensures var c := RunLines(e, b, script, at, 0).0.clk;
            && SameTimer(b.clk, c)
            && (c.fired == b.clk.fired + HTargets(c, LINES_PER_FRAME) <==> PunctualLines(e, b, script, at, 0))
  {
    hide RunLine, RunLines, Bit, HTargets;
    NoTargets(b.clk);
    if b.clk.frame < HTarget(b.clk, 0) {
      HLines(e, b, script, at, 0, b.clk.fired);
    } else {
      LateStart(e, b, script, at);
    }
  }

  lemma NoTargets(c: Clock)
    ensures c.fired + HTargets(c, 0) == c.fired
  {
    assert HTargets(c, 0) == [];
  }

  // ---- What is left for a caller to check ----

  /** Every line but the last is entered before its own H position. */
  ghost predicate EnteredInTime(e: Env, b: Bus, script: Script, at: nat, line: nat)
    requires line <= LINES_PER_FRAME
    decreases LINES_PER_FRAME - line
  {
    line == LINES_PER_FRAME ||
    (var (b1, at1) := RunLine(e, b, script, at, line);
     && (line + 1 < LINES_PER_FRAME ==> b.clk.frame < HTarget(b.clk, line))
     && EnteredInTime(e, b1, script, at1, line + 1))
  }

  lemma LineKeepsTimer(e: Env, b: Bus, script: Script, at: nat, line: nat)
    requires QuietBetween(script, at, RunLine(e, b, script, at, line).1) && !RunLine(e, b, script, at, line).0.Faulted()
    ensures var c := RunLine(e, b, script, at, line).0.clk;
            SameTimer(b.clk, c) && c.frame >= (line + 1) * MCLK_PER_LINE
  {
    hide RunLine, Bit;
    var incs := LineTicks(e, b, script, at, line);
    TicksTime(LineClock(b.clk, line), incs);
  }

  /** With HTIME at most 337 the position lies within its line, so a line is always left past it. */
  lemma {:induction false} EntryDecides(e: Env, b: Bus, script: Script, at: nat, line: nat)
    requires line <= LINES_PER_FRAME && b.clk.htime <= 337
    requires QuietBetween(script, at, RunLines(e, b, script, at, line).1)
    requires !RunLines(e, b, script, at, line).0.Faulted()
    ensures PunctualLines(e, b, script, at, line) <==> EnteredInTime(e, b, script, at, line)
    decreases LINES_PER_FRAME - line
  {
    hide RunLine, Bit;
    if line < LINES_PER_FRAME {
      var (b1, at1) := RunLine(e, b, script, at, line);
      LineWithin(e, b, script, at, line);
      LineKeepsTimer(e, b, script, at, line);
      EntryDecides(e, b1, script, at1, line + 1);
    }
  }

  lemma BriefWithin(e: Env, b: Bus, script: Script, at: nat, line: nat, n: nat)
    requires line < LINES_PER_FRAME && !RunLine(e, b, script, at, line).0.Faulted()
    requires BriefBetween(script, at, RunLines(e, b, script, at, line).1, n)
    ensures var (b1, at1) := RunLine(e, b, script, at, line);
            && BriefBetween(script, at, at1, n)
            && BriefBetween(script, at1, RunLines(e, b1, script, at1, line + 1).1, n)
  {
    hide RunLine, Brief;
    var (b1, at1) := RunLine(e, b, script, at, line);
    LineMovesOn(e, b, script, at, line);
    LinesMoveOn(e, b1, script, at1, line + 1);
  }

  /** Instructions shorter than the way to the H position cannot make a line late for it. */
  lemma {:induction false} BriefInTime(e: Env, b: Bus, script: Script, at: nat, line: nat, n: nat)
    requires line <= LINES_PER_FRAME && 12 * n <= b.clk.HOffset() && b.clk.htime <= 337
    requires b.clk.frame < line * MCLK_PER_LINE + b.clk.HOffset()
    requires QuietBetween(script, at, RunLines(e, b, script, at, line).1)
    requires BriefBetween(script, at, RunLines(e, b, script, at, line).1, n)
    requires !RunLines(e, b, script, at, line).0.Faulted()
    ensures EnteredInTime(e, b, script, at, line)
    decreases LINES_PER_FRAME - line
  {
    hide RunLine, Bit, Brief;
    if line < LINES_PER_FRAME {
      var (b1, at1) := RunLine(e, b, script, at, line);
      LineWithin(e, b, script, at, line);
      BriefWithin(e, b, script, at, line, n);
      LineKeepsTimer(e, b, script, at, line);
      LineFrame(e, b, script, at, line, n);
      BriefInTime(e, b1, script, at1, line + 1, n);
    }
  }

  /**
   H-only mode, by conditions to check beforehand: with HTIME at most 337, a carried-in clock short of
   the H position, no kick, and no instruction of more bus operations than fit before that position,
   the timer interrupts on each of the 262 lines.
   */
  lemma BriefProgramsFire(e: Env, c: CoreState, script: Script, n: nat)
    requires HOnly(c.bus.clk) && c.bus.clk.htime <= 337 && QuietFrame(e, c, script)
    requires CarryOver(c.bus).clk.frame < c.bus.clk.HOffset() && 12 * n <= c.bus.clk.HOffset()
    requires BriefBetween(script, c.at, RunOneFrame(e, c, script).at, n)
    requires !RunOneFrame(e, c, script).bus.Faulted()
    ensures RunOneFrame(e, c, script).bus.clk.fired == c.bus.clk.fired + HTargets(c.bus.clk, LINES_PER_FRAME)
  {
    hide RunLines, Bit, HTargets, PunctualLines, EnteredInTime, Brief;
    var b := CarryOver(c.bus);
    HOnlyFiresEveryLine(e, c, script);
    EntryDecides(e, b, script, c.at, 0);
    BriefInTime(e, b, script, c.at, 0, n);
  }

  /** From HTIME 340 on there is no such position, and the timer stays silent. */
  lemma HOnlySilent(e: Env, c: CoreState, script: Script)
    requires HOnly(c.bus.clk) && c.bus.clk.htime >= 340 && QuietFrame(e, c, script)
    requires !RunOneFrame(e, c, script).bus.Faulted()
    ensures RunOneFrame(e, c, script).bus.clk.fired == c.bus.clk.fired
  {
    hide RunLine, Bit;
    var b := CarryOver(c.bus);
    var (b1, at1) := RunLine(e, b, script, c.at, 0);
    LineWithin(e, b, script, c.at, 0);
    var incs := LineTicks(e, b, script, c.at, 0);
    HQuiet(LineClock(b.clk, 0), incs);
    StuckLines(e, b1, script, at1, 1);
  }

  /**
   The concrete frame that misses a line: HTIME 339 lies six clocks past its line's end, and an idle
   CPU leaves line 0 before it.
   */
  lemma IdleMissesALine(e: Env, c: CoreState, script: Script)
    requires Resting(c.bus) && NeverHalts(e) && IdlesFrom(script, c.at)
    requires HOnly(c.bus.clk) && c.bus.clk.htime == 339 && c.bus.clk.frame == 0
    ensures !RunOneFrame(e, c, script).bus.Faulted()
    ensures RunOneFrame(e, c, script).bus.clk.fired != c.bus.clk.fired + HTargets(c.bus.clk, LINES_PER_FRAME)
  {
    hide RunLine, RunLines, Bit, Resting, IdlesFrom;
    IdleLines(e, c.bus, script, c.at, 0);
    RestingSound(c.bus);
    RestingSound(RunLines(e, c.bus, script, c.at, 0).0);
    IdleIsQuiet(e, c, script);
    IdleLine(e, c.bus, script, c.at, 0);
    HOnlyFiresEveryLine(e, c, script);
  }

  // ---- A program that arms the timer and then leaves it alone ----

  /** VTIME := 100, then V mode on. */
  const ARM := Instruction(false, OpWrite(0, 0x4209, 100), [OpWrite(0, 0x420A, 0), OpWrite(0, 0x4200, 0x20)])

  lemma ArmStep(e: Env, b: Bus)
    ensures var b1 := Execute(e, b, ARM);
            && b1 == b.(clk := b1.clk, nmiPending := b1.nmiPending)
            && b1.clk.nmitimen == 0x20 && b1.clk.vtime == 100 && b1.clk.frame == b.clk.frame + 18
  {
    var b1 := Step(e, b, OpWrite(0, 0x4209, 100));
    TimerWrite(e, b, 0x4209, 100);
    TimerWrite(e, b1, 0x420A, 0);
    var b2 := Step(e, b1, OpWrite(0, 0x420A, 0));
    TimerWrite(e, b2, 0x4200, 0x20);
    hide Step, TimerWritten;
    StepsThree(e, b, OpWrite(0, 0x4209, 100), OpWrite(0, 0x420A, 0), OpWrite(0, 0x4200, 0x20));
    WrittenThree(b, b1, b2, Step(e, b2, OpWrite(0, 0x4200, 0x20)));
  }

  predicate TimerWritten(b: Bus, b1: Bus, off: word, v: byte)
    requires IrqRegister(off)
  {
    var d := SetTimerRegister(b.clk, off, v);
    && b1 == b.(clk := b1.clk, nmiPending := b1.nmiPending)
    && b1.clk.nmitimen == d.nmitimen && b1.clk.vtime == d.vtime && b1.clk.frame == b.clk.frame + 6
  }

  lemma TimerWrite(e: Env, b: Bus, off: word, v: byte)
    requires IrqRegister(off)
    ensures TimerWritten(b, Step(e, b, OpWrite(0, off, v)), off, v)
  {
    hide FreshTarget, Crosses, NextHIrqTarget, NmiEdge, NineLow, NineHigh;
  }

  lemma WrittenThree(b: Bus, b1: Bus, b2: Bus, b3: Bus)
    requires TimerWritten(b, b1, 0x4209, 100) && TimerWritten(b1, b2, 0x420A, 0) && TimerWritten(b2, b3, 0x4200, 0x20)
    ensures b3 == b.(clk := b3.clk, nmiPending := b3.nmiPending)
    ensures b3.clk.nmitimen == 0x20 && b3.clk.vtime == 100 && b3.clk.frame == b.clk.frame + 18
  {
  }

  lemma StepsThree(e: Env, b: Bus, x: BusOp, y: BusOp, z: BusOp)
    ensures Steps(e, b, [x] + [y, z]) == Step(e, Step(e, Step(e, b, x), y), z)
  {
    hide Step;
    var b1 := Step(e, b, x);
    var b2 := Step(e, b1, y);
    assert ([x] + [y, z])[1..] == [y, z] && [y, z][1..] == [z] && [z][1..] == [];
    assert Steps(e, b2, [z]) == Steps(e, Step(e, b2, z), []) == Step(e, b2, z);
    assert Steps(e, b1, [y, z]) == Steps(e, b2, [z]);
  }

  lemma ArmCpu(e: Env, b: Bus, script: Script, at: nat)
    requires Resting(b) && b.clk.frame < MCLK_PER_LINE && script(at) == ARM && IdlesFrom(script, at + 1)
    ensures var (r, at1) := RunCpu(e, b, script, at, MCLK_PER_LINE);
            && at1 > at && Resting(r) && r.clk.nmitimen == 0x20 && r.clk.vtime == 100
            && MCLK_PER_LINE <= r.clk.frame < 2 * MCLK_PER_LINE
  {
    hide Execute;
    ArmStep(e, b);
    IdleCpu(e, Execute(e, b, ARM), script, at + 1, MCLK_PER_LINE);
  }

  lemma ArmLine(e: Env, b: Bus, script: Script, at: nat)
    requires Resting(b) && NeverHalts(e)
    requires b.clk.frame < MCLK_PER_LINE && script(at) == ARM && IdlesFrom(script, at + 1)
    ensures var (r, at1) := RunLine(e, b, script, at, 0);
            && at1 > at && Resting(r) && r.clk.nmitimen == 0x20 && r.clk.vtime == 100
            && r.clk.frame < 2 * MCLK_PER_LINE
  {
    hide OpenLine, LineHdma, RunCpu, CloseFrameLine;
    RestingOpen(e, b, 0);
    var b1 := LineHdma(e, OpenLine(e, b, 0), 0);
    ArmCpu(e, b1, script, at);
    RestingClose(e, RunCpu(e, b1, script, at, MCLK_PER_LINE).0, 0);
  }

  /**
   The condition of `OneShotFiresOnce` speaks of one frame only: a program that arms the timer in its
   first frame does not meet it there, meets it in the next, and is interrupted once in it.
   */
  lemma ArmedThenIdle(e: Env, c: CoreState, script: Script)
    requires Resting(c.bus) && NeverHalts(e) && c.bus.clk.frame < MCLK_PER_LINE
    requires script(c.at) == ARM && IdlesFrom(script, c.at + 1)
    ensures var c1 := RunOneFrame(e, c, script);
            var c2 := RunOneFrame(e, c1, script);
            && !QuietFrame(e, c, script) && QuietFrame(e, c1, script)
            && OneShot(c1.bus.clk) && !c2.bus.Faulted()
            && c2.bus.clk.fired == c1.bus.clk.fired + [100 * MCLK_PER_LINE + 10]
  {
    hide RunOneFrame, Resting, IdlesFrom, QuietFrame, CarryOver, Bit, OneShot, OneShotTarget;
    ArmedFrame(e, c, script);
    var c1 := RunOneFrame(e, c, script);
    IdleFrame(e, c1, script);
    IdleIsQuiet(e, c1, script);
    ArmWrites(e, c, script);
    ArmedClock(c1.bus.clk);
    OneShotFiresOnce(e, c1, script);
    assert CarryOver(c1.bus).clk.frame < 6;
    assert OneShotTarget(c1.bus.clk) == Some(100 * MCLK_PER_LINE + 10);
  }

  lemma ArmedClock(c: Clock)
    requires c.nmitimen == 0x20 && c.vtime == 100
    ensures OneShot(c) && OneShotTarget(c) == Some(100 * MCLK_PER_LINE + 10)
  {
  }

  lemma ArmWrites(e: Env, c: CoreState, script: Script)
    requires script(c.at) == ARM && RunOneFrame(e, c, script).at > c.at
    ensures !QuietFrame(e, c, script)
  {
    hide RunOneFrame;
    assert WritesTimer(ARM.first);
    assert !QuietAction(script(c.at));
  }

  lemma IdleIsQuiet(e: Env, c: CoreState, script: Script)
    requires IdlesFrom(script, c.at)
    ensures QuietFrame(e, c, script)
  {
    hide RunOneFrame;
  }

  lemma ArmedFrame(e: Env, c: CoreState, script: Script)
    requires Resting(c.bus) && NeverHalts(e) && c.bus.clk.frame < MCLK_PER_LINE
    requires script(c.at) == ARM && IdlesFrom(script, c.at + 1)
    ensures var c1 := RunOneFrame(e, c, script);
            && c1.at > c.at && Resting(c1.bus) && IdlesFrom(script, c1.at)
            && c1.bus.clk.nmitimen == 0x20 && c1.bus.clk.vtime == 100
            && MCLK_PER_FRAME <= c1.bus.clk.frame < MCLK_PER_FRAME + 6
  {
    hide RunLine;
    var (b1, at1) := RunLine(e, c.bus, script, c.at, 0);
    ArmLine(e, c.bus, script, c.at);
    IdleLines(e, b1, script, at1, 1);
  }

  lemma IdleFrame(e: Env, c: CoreState, script: Script)
    requires Resting(c.bus) && NeverHalts(e) && IdlesFrom(script, c.at)
    requires MCLK_PER_FRAME <= c.bus.clk.frame < MCLK_PER_FRAME + 6
    ensures var c1 := RunOneFrame(e, c, script);
            !c1.bus.Faulted() && c1.bus.clk.frame >= MCLK_PER_FRAME && CarryOver(c.bus).clk.frame < 6
  {
    hide RunLines;
    IdleLines(e, CarryOver(c.bus), script, c.at, 0);
  }
}
