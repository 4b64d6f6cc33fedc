/**
 How far the sound CPU falls behind between two catch-ups: never more than the time a line takes,
 which is not always within one scanline.
 */
module ApuLag {
  import opened Timing
  import opened Clock
  import opened Memory
  import opened Dma
  import opened DmaResults
  import opened Hdma
  import opened IoUnit
  import opened BusOps
  import opened BusTime
  import opened Frame
  import opened ApuSync
  import opened Idling
  import opened Overrun

  /** Master clocks the APU has still to be given. */
  function Lag(b: Bus): int { b.clk.total - b.apuBase }

  // ---- A DMA kick ----

  /** Master clocks a fault-free kick takes. */
  function KickCost(ch: Channels8, mask: set<nat>): nat { 12 + 8 * Enabled(mask, 0) + 8 * Before(ch, mask, 0, 8) }

  /**
   A fault-free kick moves the clock by its full cost at once and the APU not at all, so its own cost is
   within a scanline exactly if its channels and bytes together number at most 169, and the APU is
   within one after it exactly if that cost and the lag before it are.
   */
  lemma KickLag(e: Env, b: Bus, mask: set<nat>)
    requires !KickDma(e, b, mask).Faulted()
    ensures var r, cost := KickDma(e, b, mask), KickCost(b.hub.ch, mask);
            && r.clk.frame == b.clk.frame + cost && r.apuBase == b.apuBase
            && (cost <= MCLK_PER_LINE <==> Enabled(mask, 0) + Before(b.hub.ch, mask, 0, 8) <= 169)
            && (b.clk.total + cost < TOTAL_RANGE ==>
                  && Lag(r) == Lag(b) + cost
                  && (Lag(r) <= MCLK_PER_LINE <==> Lag(b) + cost <= MCLK_PER_LINE))
  {
    hide ExecuteDma, KickPlan, PerformAll, AddMclk, ApuCycles, Enabled, Before;
    var k := Kick(b.clk, b.hub.mem, b.hub.ch);
    ExecuteDmaExact(e, k, mask);
    FaultFreeKick(e, k, mask, 0);
    TickTotal(b.clk, 12 + 8 * Enabled(mask, 0) + 8 * Before(b.hub.ch, mask, 0, 8));
  }

  /** One full-length channel alone takes the clock more than 384 scanlines past the APU. */
  lemma KickOutrunsScanlines(e: Env, b: Bus)
    requires b.hub.ch[0].das == 0 && !KickDma(e, b, {0}).Faulted()
    ensures KickDma(e, b, {0}).clk.frame - b.clk.frame > 384 * MCLK_PER_LINE && KickDma(e, b, {0}).apuBase == b.apuBase
  {
    hide KickDma;
    KickLag(e, b, {0});
    OneChannel(b.hub.ch);
  }

  lemma OneChannel(ch: Channels8)
    ensures Enabled({0}, 0) == 1 && Before(ch, {0}, 0, 8) == ch[0].Count()
  {
    assert Enabled({0}, 1) == 0 by { NoneEnabled(1); }
    assert Before(ch, {0}, 1, 8) == 0 by { NoneBefore(ch, 1); }
  }

  lemma {:induction false} NoneEnabled(i: nat)
    requires 1 <= i <= 8
    ensures Enabled({0}, i) == 0
    decreases 8 - i
  {
    if i < 8 { NoneEnabled(i + 1); }
  }

  lemma {:induction false} NoneBefore(ch: Channels8, i: nat)
    requires 1 <= i <= 8
    ensures Before(ch, {0}, i, 8) == 0
    decreases 8 - i
  {
    if i < 8 { NoneBefore(ch, i + 1); }
  }

  /** A kick from bank 0 to the picture unit's VRAM port: 65536 bytes, none of which can fault. */
  const TO_VRAM := DmaChannel(0, 0x18, 0, 0, 0, 0, 0, 0)
  const QUIET_ENV := RawEnv([0], (l, r, v) => None, (l, r, m) => m, l => false, (l, p) => 0, l => None,
                            l => false, l => false, l => false, l => 0)

  lemma {:induction false} VramMovesNeverFault(e: Env, m: Mem, moves: seq<Move>)
    requires e == QUIET_ENV && m.fault.None?
    requires forall mv :: mv in moves ==> mv.reg == 0x18 && !mv.toA
    ensures PerformAll(e, m, moves).0.fault.None?
    decreases moves
  {
    hide ARead;
    if moves != [] {
      assert moves[0] in moves;
      VramMovesNeverFault(e, Perform(e, m, moves[0]), moves[1..]);
    }
  }

  lemma {:induction false} OnePlan(ch: Channels8, i: nat)
    requires 1 <= i <= 8
    ensures KickPlan(ch, {0}, i) == []
    decreases 8 - i
  {
    hide Plan;
    if i < 8 { OnePlan(ch, i + 1); }
  }

  lemma VramKick(e: Env, b: Bus)
    requires e == QUIET_ENV && !b.Faulted() && b.hub.ch[0] == TO_VRAM && b.apuBase == b.clk.total == 0
    ensures !KickDma(e, b, {0}).Faulted() && Lag(KickDma(e, b, {0})) > 384 * MCLK_PER_LINE
  {
    hide PerformAll, KickPlan, ExecuteDma, KickDma, MovedAll;
    KickMoves(e, b, {0});
    VramPlan(b.hub.ch);
    VramMovesNeverFault(e, b.Mem(), KickPlan(b.hub.ch, {0}, 0));
    KickOutrunsScanlines(e, b);
    KickLag(e, b, {0});
    OneChannel(b.hub.ch);
    var n := KickTime(e, b, {0});
  }

  lemma KickMoves(e: Env, b: Bus, mask: set<nat>)
    ensures KickDma(e, b, mask).Mem() == PerformAll(e, b.Mem(), KickPlan(b.hub.ch, mask, 0)).0
  {
    hide PerformAll, KickPlan, ExecuteDma, MovedAll, AddMclk, Observable;
    ExecuteDmaExact(e, Kick(b.clk, b.hub.mem, b.hub.ch), mask);
  }

  /** A concrete bus, caught up with its clock, whose kick leaves the APU hundreds of scanlines behind. */
  lemma LongKick() returns (e: Env, b: Bus)
    ensures CaughtUp(b) && !b.Faulted() && !KickDma(e, b, {0}).Faulted()
    ensures Lag(KickDma(e, b, {0})) > 384 * MCLK_PER_LINE
  {
    hide KickDma;
    e := QUIET_ENV;
    var m := Mem(seq(WRAM_SIZE, i => 0), [], 0, 0, [], None);
    var hub := Hub(m, seq(8, i => TO_VRAM), seq(8, i => INACTIVE), {}, {}, []);
    b := Bus(Clock(0, 0, false, None, 0, 0x1FF, 0x1FF, 0, []), hub, 0, false, false, false, false, false, 225,
             POWER_ON_IO);
    VramKick(e, b);
  }

  lemma VramPlan(ch: Channels8)
    requires ch[0] == TO_VRAM
    ensures forall mv :: mv in KickPlan(ch, {0}, 0) ==> mv.reg == 0x18 && !mv.toA
  {
    OnePlan(ch, 1);
    assert KickPlan(ch, {0}, 0) == Plan(ch[0]);
    forall i | 0 <= i < TO_VRAM.Count()
      ensures MoveAt(TO_VRAM, i).reg == 0x18 && !MoveAt(TO_VRAM, i).toA
    {
      assert UnitPattern(0) == [0] && i % 1 == 0;
    }
  }

  lemma KickTime(e: Env, b: Bus, mask: set<nat>) returns (n: nat)
    ensures Elapsed(b.clk, KickDma(e, b, mask).clk, n)
  {
    hide KickDma;
    var incs := KickTicks(e, b, mask);
    TicksTime(b.clk, incs);
    n := Sum(incs);
  }

  // ---- A whole line ----

  /** The bus as the CPU leaves it on `line`, just before the line's catch-up. */
  function LineStop(e: Env, b: Bus, script: Script, at: nat, line: nat): Bus {
    RunCpu(e, LineHdma(e, OpenLine(e, b, line), line), script, at, (line + 1) * MCLK_PER_LINE).0
  }

  predicate PortFreeAction(a: CpuAction) {
    a.Instruction? ==> !TouchesApu(a.first) && forall op :: op in a.rest ==> !TouchesApu(op)
  }

  /** The CPU steps `from..to` access none of the four APU ports. */
  ghost predicate PortFree(script: Script, from: nat, to: nat) {
    forall at: nat :: from <= at < to ==> PortFreeAction(script(at))
  }

  lemma CartKeepsBase(e: Env, b: Bus, bank: byte, off: word)
    ensures ReadCart(e, b, bank, off).1.apuBase == b.apuBase
  {
    hide CartRead;
  }

  lemma PlainReadKeepsBase(e: Env, b: Bus, bank: byte, off: word)
    requires !(0x2140 <= off <= 0x217F)
    ensures ReadSystem(e, b, bank, off).1.apuBase == b.apuBase
  {
    hide ReadPpuSpace, ReadPort, ReadIoRegister, ReadCart, ReadNmiFlag, ReadTimeup, ReadDmaRegister, ApuPortRead;
    if 0x2100 <= off <= 0x213F { PpuReadKeepsBase(e, b, off - 0x2100); }
    RegistersKeepBase(e, b, off);
    CartKeepsBase(e, b, bank, off);
  }

  lemma PpuReadKeepsBase(e: Env, b: Bus, reg: byte)
    ensures ReadPpuSpace(e, b, reg).1.apuBase == b.apuBase
  {
    hide PpuReadReg;
  }

  lemma RegistersKeepBase(e: Env, b: Bus, off: word)
    ensures ReadPort(b).1.apuBase == b.apuBase
    ensures IoReadAddress(off) ==> ReadIoRegister(b, off).1.apuBase == b.apuBase
    ensures ReadNmiFlag(b).1.apuBase == b.apuBase && ReadTimeup(b).1.apuBase == b.apuBase
    ensures 0x4300 <= off <= 0x437F ==> ReadDmaRegister(b, off).1.apuBase == b.apuBase
  {
    hide ReadReg;
  }

  lemma ControlKeepsBase(e: Env, b: Bus, bank: byte, off: word, v: byte)
    ensures WriteControl(e, b, bank, off, v).apuBase == b.apuBase
  {
    hide ExecuteDma, WriteReg, RecomputeIrqTarget, SetTimerRegister, Channels, NmiEdge;
  }

  lemma PlainWriteKeepsBase(e: Env, b: Bus, bank: byte, off: word, v: byte)
    requires !(0x2140 <= off <= 0x217F)
    ensures WriteSystem(e, b, bank, off, v).apuBase == b.apuBase
  {
    hide WriteControl, PpuWriteReg, BWrite;
    ControlKeepsBase(e, b, bank, off, v);
  }

  /** Only a port access moves the APU; it is then level with the clock. */
  lemma StepBase(e: Env, b: Bus, op: BusOp) returns (n: nat)
    requires InStep(b)
    ensures Elapsed(b.clk, Step(e, b, op).clk, n)
    ensures !TouchesApu(op) ==> Step(e, b, op).apuBase == b.apuBase
    ensures b.clk.total + n < TOTAL_RANGE ==> InStep(Step(e, b, op)) && Step(e, b, op).apuBase >= b.apuBase
  {
    hide ReadSystem, ReadCart, WriteSystem, AWrite, AddMclk, MemSpeed, ApuCycles;
    n := StepInStep(e, b, op);
    match op {
      case OpIdle =>
      case OpRead(bank, off) =>
        var b1 := WithClock(b, AddMclk(b.clk, MemSpeed(bank, off, b.fastRom)));
        CartKeepsBase(e, b1, bank, off);
        if !(0x2140 <= off <= 0x217F) { PlainReadKeepsBase(e, b1, bank, off); }
      case OpWrite(bank, off, v) =>
        var b1 := WithClock(b, AddMclk(b.clk, MemSpeed(bank, off, b.fastRom)));
        if !(0x2140 <= off <= 0x217F) { PlainWriteKeepsBase(e, b1, bank, off, v); }
    }
  }

  /** Exactly how the lag moves: a port access clears it, any other operation adds its own time. */
  lemma StepLag(e: Env, b: Bus, op: BusOp) returns (n: nat)
    requires InStep(b)
    ensures n >= 6 && Elapsed(b.clk, Step(e, b, op).clk, n)
    ensures b.clk.total + n < TOTAL_RANGE ==> Lag(Step(e, b, op)) == if TouchesApu(op) then 0 else Lag(b) + n
  {
    hide Step, ApuCycles, TouchesApu;
    n := StepBase(e, b, op);
    var m := StepInStep(e, b, op);
    ElapsedUnique(b.clk, Step(e, b, op).clk, m, n);
  }

  // ---- The last port access ----

  /** The clock right after the last port access of `ops`; `last` if there is none. */
  function StepsAccess(e: Env, b: Bus, ops: seq<BusOp>, last: int): int
    decreases ops
  {
    if ops == [] then last
    else
      var b1 := Step(e, b, ops[0]);
      StepsAccess(e, b1, ops[1..], if TouchesApu(ops[0]) then b1.clk.total else last)
  }

  function ExecuteAccess(e: Env, b: Bus, a: CpuAction, last: int): int
    requires a.Instruction?
  {
    StepsAccess(e, if a.takesNmi then b.(nmiPending := false) else b, [a.first] + a.rest, last)
  }

  function CpuAccess(e: Env, b: Bus, script: Script, at: nat, target: nat, last: int): int
    decreases if b.clk.frame < target then target - b.clk.frame else 0
  {
    if b.clk.frame >= target || b.Faulted() || script(at).Stopped? then last
    else
      ExecuteAdvances(e, b, script(at));
      CpuAccess(e, Execute(e, b, script(at)), script, at + 1, target, ExecuteAccess(e, b, script(at), last))
  }

  lemma {:induction false} StepsBase(e: Env, b: Bus, ops: seq<BusOp>) returns (n: nat)
    requires InStep(b)
    ensures var b1 := Steps(e, b, ops);
            && Elapsed(b.clk, b1.clk, n)
            && (b.clk.total + n < TOTAL_RANGE ==>
                  InStep(b1) && b1.apuBase >= b.apuBase && b1.apuBase == StepsAccess(e, b, ops, b.apuBase))
    decreases ops
  {
    hide Step, TouchesApu, Elapsed, ApuCycles;
    if ops == [] {
      n := 0;
      ElapsedNone(b.clk);
    } else {
      var b1 := Step(e, b, ops[0]);
      var m := StepBase(e, b, ops[0]);
      var r := StepsTime(e, b1, ops[1..]);
      ElapsedJoin(b.clk, b1.clk, Steps(e, b1, ops[1..]).clk, m, r);
      n := m + r;
      if b.clk.total + n < TOTAL_RANGE {
        TotalAfter(b.clk, b1.clk, m);
        var k := StepInStep(e, b, ops[0]);
        ElapsedUnique(b.clk, b1.clk, m, k);
        var r2 := StepsBase(e, b1, ops[1..]);
        ElapsedUnique(b1.clk, Steps(e, b1, ops[1..]).clk, r, r2);
      }
    }
  }

  lemma {:induction false} StepsNoAccess(e: Env, b: Bus, ops: seq<BusOp>, last: int)
    requires forall op :: op in ops ==> !TouchesApu(op)
    ensures StepsAccess(e, b, ops, last) == last
    decreases ops
  {
    hide Step, TouchesApu;
    if ops != [] { StepsNoAccess(e, Step(e, b, ops[0]), ops[1..], last); }
  }

  lemma ExecuteNoAccess(e: Env, b: Bus, a: CpuAction, last: int)
    requires a.Instruction? && PortFreeAction(a)
    ensures ExecuteAccess(e, b, a, last) == last
  {
    hide Steps, StepsAccess, TouchesApu;
    StepsNoAccess(e, if a.takesNmi then b.(nmiPending := false) else b, [a.first] + a.rest, last);
  }

  lemma {:induction false} CpuNoAccess(e: Env, b: Bus, script: Script, at: nat, target: nat, last: int)
    requires PortFree(script, at, RunCpu(e, b, script, at, target).1)
    ensures CpuAccess(e, b, script, at, target, last) == last
    decreases if b.clk.frame < target then target - b.clk.frame else 0
  {
    hide Execute, ExecuteAccess, PortFreeAction, PortFree;
    if b.clk.frame < target && !b.Faulted() && script(at).Instruction? {
      var b1 := Execute(e, b, script(at));
      ExecuteAdvances(e, b, script(at));
      CpuMovesOn(e, b1, script, at + 1, target);
      PortFreeParts(script, at, RunCpu(e, b1, script, at + 1, target).1);
      ExecuteNoAccess(e, b, script(at), last);
      CpuNoAccess(e, b1, script, at + 1, target, last);
    }
  }

  lemma TotalAfter(c: Clock, d: Clock, n: nat)
    requires Elapsed(c, d, n) && c.total + n < TOTAL_RANGE
    ensures d.total == c.total + n
  {
  }

  lemma ExecuteBase(e: Env, b: Bus, a: CpuAction) returns (n: nat)
    requires InStep(b) && a.Instruction?
    ensures var b1 := Execute(e, b, a);
            && Elapsed(b.clk, b1.clk, n)
            && (b.clk.total + n < TOTAL_RANGE ==>
                  InStep(b1) && b1.apuBase >= b.apuBase && b1.apuBase == ExecuteAccess(e, b, a, b.apuBase))
  {
    hide ApuCycles, Steps, StepsAccess, TouchesApu;
    n := StepsBase(e, if a.takesNmi then b.(nmiPending := false) else b, [a.first] + a.rest);
  }

  lemma PortFreeParts(script: Script, from: nat, to: nat)
    requires from < to
    ensures PortFree(script, from, to) ==> PortFreeAction(script(from)) && PortFree(script, from + 1, to)
  {
  }

  lemma StoppedInStep(b: Bus)
    requires InStep(b)
    ensures InStep(Raise(b, CpuStopped)) && Raise(b, CpuStopped).apuBase == b.apuBase
  {
  }

  lemma {:induction false} CpuBase(e: Env, b: Bus, script: Script, at: nat, target: nat, n: nat)
    requires InStep(b) && Elapsed(b.clk, RunCpu(e, b, script, at, target).0.clk, n)
    requires b.clk.total + n < TOTAL_RANGE
    ensures var b1 := RunCpu(e, b, script, at, target).0;
            InStep(b1) && b1.apuBase >= b.apuBase && b1.apuBase == CpuAccess(e, b, script, at, target, b.apuBase)
    decreases if b.clk.frame < target then target - b.clk.frame else 0
  {
    hide InStep, Raise, Execute, ExecuteAccess, Elapsed;
    StoppedInStep(b);
    if b.clk.frame < target && !b.Faulted() && script(at).Instruction? {
      var b1 := Execute(e, b, script(at));
      ExecuteAdvances(e, b, script(at));
      var m := ExecuteBase(e, b, script(at));
      var r := CpuTime(e, b1, script, at + 1, target);
      ElapsedJoin(b.clk, b1.clk, RunCpu(e, b1, script, at + 1, target).0.clk, m, r);
      ElapsedUnique(b.clk, RunCpu(e, b1, script, at + 1, target).0.clk, m + r, n);
      TotalAfter(b.clk, b1.clk, m);
      CpuBase(e, b1, script, at + 1, target, r);
    }
  }

  lemma OpenLineBase(e: Env, b: Bus, line: nat)
    ensures LineHdma(e, OpenLine(e, b, line), line).apuBase == b.apuBase
  {
    hide InitHdma, ExecuteHdma, StartLine;
    assert StartLine(b, line).apuBase == b.apuBase by { StartLineBase(b, line); }
    StartLineBase(BeginFrame(e, b), line);
  }

  lemma StartLineBase(b: Bus, line: nat)
    ensures StartLine(b, line).apuBase == b.apuBase
  {
    hide LineClock;
  }

  /** The clock right after the line's last port access; its start if there is none. */
  function LastAccess(e: Env, b: Bus, script: Script, at: nat, line: nat): int {
    CpuAccess(e, LineHdma(e, OpenLine(e, b, line), line), script, at, (line + 1) * MCLK_PER_LINE, b.clk.total)
  }

  /**
   Just before the catch-up at a line's end the APU is behind by exactly the time since the line's last
   port access, or since its start if there was none. A line takes a scanline plus what it ends late
   less what it started late, so the lag is never more than that, and without a port access it is
   within one scanline exactly if the line ends no later past its end than it started past its start.
   */
  lemma LineLag(e: Env, b: Bus, script: Script, at: nat, line: nat)
    requires CaughtUp(b) && b.clk.frame >= line * MCLK_PER_LINE
    requires var s := LineStop(e, b, script, at, line);
             !s.Faulted() && b.clk.total + (s.clk.frame - b.clk.frame) < TOTAL_RANGE
    ensures var s := LineStop(e, b, script, at, line);
            var lateOut := s.clk.frame - (line + 1) * MCLK_PER_LINE;
            var lateIn := b.clk.frame - line * MCLK_PER_LINE;
            && lateOut >= 0
            && Lag(s) == s.clk.total - LastAccess(e, b, script, at, line)
            && 0 <= Lag(s) <= MCLK_PER_LINE + lateOut - lateIn
            && (PortFree(script, at, RunLine(e, b, script, at, line).1) ==>
                  && Lag(s) == MCLK_PER_LINE + lateOut - lateIn
                  && (Lag(s) <= MCLK_PER_LINE <==> lateOut <= lateIn))
  {
    hide ApuCycles, RunCpu, OpenLine, LineHdma, CloseFrameLine, PortFree, CpuAccess;
    var b1 := LineHdma(e, OpenLine(e, b, line), line);
    OpenLineInStep(e, b, line);
    OpenLineTime(e, b, line);
    OpenLineBase(e, b, line);
    var n := CpuTime(e, b1, script, at, (line + 1) * MCLK_PER_LINE);
    CpuBase(e, b1, script, at, (line + 1) * MCLK_PER_LINE, n);
    TotalAfter(b1.clk, LineStop(e, b, script, at, line).clk, n);
    if b1.Faulted() { FaultedStops(e, b1, script, at, (line + 1) * MCLK_PER_LINE); }
    if PortFree(script, at, RunLine(e, b, script, at, line).1) {
      CpuNoAccess(e, b1, script, at, (line + 1) * MCLK_PER_LINE, b.clk.total);
    }
  }

  /**
   A bound to check beforehand: on a line without a kick whose instructions make at most `n` bus
   operations, and which starts before its end, the lag is less than a scanline and one instruction.
   */
  lemma BriefLineLag(e: Env, b: Bus, script: Script, at: nat, line: nat, n: nat)
    requires CaughtUp(b) && line * MCLK_PER_LINE <= b.clk.frame < (line + 1) * MCLK_PER_LINE
    requires BriefBetween(script, at, RunLine(e, b, script, at, line).1, n)
    requires !LineStop(e, b, script, at, line).Faulted() && b.clk.total + MCLK_PER_LINE + 12 * n < TOTAL_RANGE
    ensures 0 <= Lag(LineStop(e, b, script, at, line))
              < MCLK_PER_LINE + 12 * n - (b.clk.frame - line * MCLK_PER_LINE)
  {
    hide ApuCycles, RunCpu, OpenLine, LineHdma, CloseFrameLine, CpuAccess, BriefBetween;
    var b1 := LineHdma(e, OpenLine(e, b, line), line);
    OpenLineTime(e, b, line);
    if b1.Faulted() { FaultedStops(e, b1, script, at, (line + 1) * MCLK_PER_LINE); }
    CpuFrame(e, b1, script, at, (line + 1) * MCLK_PER_LINE, n);
    LineLag(e, b, script, at, line);
  }

  lemma FaultedStops(e: Env, b: Bus, script: Script, at: nat, target: nat)
    requires b.Faulted()
    ensures RunCpu(e, b, script, at, target) == (b, at)
  {
  }

  /** No DMA is needed for that: from a clock of 0 an idling CPU ends line 0 on clock 1368, four clocks late. */
  lemma IdleLineOutruns(e: Env, b: Bus, script: Script, at: nat)
    requires CaughtUp(b) && b.clk.frame == 0 && b.clk.total < TOTAL_RANGE - 1368
    requires !b.Faulted() && b.hub.hdmaen == {} && IdlesFrom(script, at)
    ensures Lag(LineStop(e, b, script, at, 0)) == 1368 > MCLK_PER_LINE
  {
    hide ApuCycles, RunCpu, OpenLine, LineHdma;
    RestingOpen(e, b, 0);
    OpenLineBase(e, b, 0);
    OpenLineTime(e, b, 0);
    var b1 := LineHdma(e, OpenLine(e, b, 0), 0);
    IdleCpu(e, b1, script, at, MCLK_PER_LINE);
    var n := CpuTime(e, b1, script, at, MCLK_PER_LINE);
  }
}
