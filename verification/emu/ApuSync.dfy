/** The cycle deltas handed to the APU add up to the master clock. */
module ApuSync {
  import opened Timing
  import opened Clock
  import opened Memory
  import opened Dma
  import opened DmaResults
  import opened Hdma
  import opened IoUnit
  import opened BusOps
  import opened BusTime
  import opened Frame

  /** All cycles the APU has been advanced by. */
  function ApuCycles(log: Log): nat {
    if log == [] then 0
    else
      var last := log[|log| - 1];
      ApuCycles(log[..|log| - 1]) + (if last.ApuAdvance? then last.cycles else 0)
  }

  lemma CyclesAppend(log: Log, ev: DevEvent)
    ensures ApuCycles(log + [ev]) == ApuCycles(log) + (if ev.ApuAdvance? then ev.cycles else 0)
  {
    assert (log + [ev])[..|log|] == log;
  }

  /** The APU has been advanced to `apuBase`, which is not ahead of the clock. */
  predicate InStep(b: Bus) { ApuCycles(b.Mem().log) == b.apuBase <= b.clk.total }

  predicate CaughtUp(b: Bus) { ApuCycles(b.Mem().log) == b.apuBase == b.clk.total }

  predicate SameCycles(m: Mem, n: Mem) { ApuCycles(m.log) == ApuCycles(n.log) }

  // ---- Memory traffic never advances the APU ----

  lemma MemoryKeepsCycles(e: Env, m: Mem, reg: byte, v: byte, bank: byte, off: word)
    ensures SameCycles(m, BWrite(e, m, reg, v))
    ensures SameCycles(m, BRead(e, m, reg).1)
    ensures SameCycles(m, AWrite(m, bank, off, v))
    ensures SameCycles(m, PpuWriteReg(e, m, reg, v))
    ensures SameCycles(m, PpuReadReg(e, m, reg).1)
  {
    hide ApuCycles;
    CyclesAppend(m.log, PpuWrite(reg, v));
    CyclesAppend(m.log, PpuRead(reg));
    CyclesAppend(m.log, ApuRead(reg % 4));
    CyclesAppend(m.log, ApuWrite(reg % 4, v));
  }

  lemma MoveKeepsCycles(e: Env, m: Mem, mv: Move)
    ensures SameCycles(m, Perform(e, m, mv))
  {
    hide ApuCycles, BWrite, BRead, AWrite, ARead, SameCycles;
    MemoryKeepsCycles(e, m, mv.reg, ARead(e, m, mv.bank, mv.off), mv.bank, mv.off);
    var (v, m1) := BRead(e, m, mv.reg);
    MemoryKeepsCycles(e, m1, mv.reg, v, mv.bank, mv.off);
    SameCyclesJoin(m, m1, AWrite(m1, mv.bank, mv.off, v));
  }

  lemma SameCyclesJoin(l: Mem, m: Mem, n: Mem)
    requires SameCycles(l, m) && SameCycles(m, n)
    ensures SameCycles(l, n)
  {
  }

  lemma {:induction false} MovesKeepCycles(e: Env, m: Mem, moves: seq<Move>)
    ensures SameCycles(m, PerformAll(e, m, moves).0)
    decreases moves
  {
    hide ApuCycles, Perform;
    if moves != [] && m.fault.None? {
      MoveKeepsCycles(e, m, moves[0]);
      MovesKeepCycles(e, Perform(e, m, moves[0]), moves[1..]);
    }
  }

  lemma KickKeepsCycles(e: Env, b: Bus, mask: set<nat>)
    ensures SameCycles(b.Mem(), KickDma(e, b, mask).Mem()) && KickDma(e, b, mask).apuBase == b.apuBase
  {
    hide ApuCycles, ExecuteDma, KickPlan, PerformAll, Observable, AddMclk;
    var k := Kick(b.clk, b.hub.mem, b.hub.ch);
    ExecuteDmaExact(e, k, mask);
    MovesKeepCycles(e, k.mem, KickPlan(k.ch, mask, 0));
  }

  lemma {:induction false} UnitKeepsCycles(e: Env, b: Hub, i: nat, p: nat)
    requires i < 8
    ensures SameCycles(b.mem, MoveUnit(e, b, i, p).mem)
    decreases |UnitPattern(b.ch[i].dmap)| - p
  {
    hide ApuCycles, BWrite, ARead;
    if p < |UnitPattern(b.ch[i].dmap)| {
      var c := b.ch[i];
      var v := if c.Indirect() then ARead(e, b.mem, c.dasb, c.das) else ARead(e, b.mem, c.a1b, c.a2a);
      MemoryKeepsCycles(e, b.mem, BReg(c.bbad, UnitPattern(c.dmap)[p]), v, 0, 0);
      UnitKeepsCycles(e, MoveUnitByte(e, b, i, p), i, p + 1);
    }
  }

  lemma {:induction false} HdmaKeepsCycles(e: Env, b: Hub, i: nat)
    requires i <= 8
    ensures SameCycles(b.mem, HdmaChannels(e, b, i).mem)
    decreases 8 - i
  {
    hide ApuCycles, MoveUnit, LoadEntry;
    if i < 8 {
      if Serviced(b, i) && b.mem.fault.None? {
        UnitKeepsCycles(e, b, i, 0);
        var b1 := if b.state[i].doTransfer then MoveUnit(e, b, i, 0) else b;
        CloseMem(e, b1, i);
        HdmaKeepsCycles(e, ServiceChannel(e, b, i), i + 1);
      } else if !Serviced(b, i) {
        HdmaKeepsCycles(e, b, i + 1);
      }
    }
  }

  lemma CloseMem(e: Env, b: Hub, i: nat)
    requires i < 8
    ensures CloseLine(e, b, i).mem == b.mem
  {
  }

  lemma {:induction false} InitMem(e: Env, b: Hub, i: nat)
    requires i <= 8
    ensures InitChannels(e, b, i).mem == b.mem
    decreases 8 - i
  {
    hide ApuCycles;
    if i < 8 {
      if i in b.hdmaen {
        InitMem(e, LoadEntry(e, b.(ch := b.ch[i := b.ch[i].(a2a := b.ch[i].a1t)]), i), i + 1);
      } else {
        InitMem(e, b.(state := b.state[i := INACTIVE]), i + 1);
      }
    }
  }

  // ---- Catch-up ----

  lemma EmitStep(b: Bus, ev: DevEvent)
    requires !ev.ApuAdvance?
    ensures ApuCycles(Emit(b, ev).Mem().log) == ApuCycles(b.Mem().log)
  {
    hide ApuCycles;
    CyclesAppend(b.Mem().log, ev);
  }

  lemma CatchUpInStep(e: Env, b: Bus)
    requires InStep(b)
    ensures CaughtUp(ApuCatchUp(e, b))
  {
    hide ApuCycles;
    CyclesAppend(b.Mem().log, ApuAdvance(b.clk.total - b.apuBase));
  }

  lemma ServiceInStep(e: Env, b: Bus)
    ensures InStep(b) ==> InStep(ServicePendingCC(e, b))
    ensures CaughtUp(b) ==> CaughtUp(ServicePendingCC(e, b))
  {
    hide ApuCycles;
    EmitStep(b.(pendingCC := false), ApuStep);
  }

  lemma PortReadInStep(e: Env, b: Bus, port: byte)
    requires InStep(b)
    ensures CaughtUp(ApuPortRead(e, b, port).1)
  {
    hide ApuCycles, ApuCatchUp, ServicePendingCC;
    CatchUpInStep(e, b);
    ServiceInStep(e, ApuCatchUp(e, b));
    EmitStep(ServicePendingCC(e, ApuCatchUp(e, b)), ApuRead(port));
  }

  lemma BeforeWriteInStep(e: Env, b: Bus, port: byte, v: byte)
    requires InStep(b)
    ensures InStep(BeforePortWrite(e, b, port, v))
    ensures !DefersCatchUp(e, b, port) ==> CaughtUp(BeforePortWrite(e, b, port, v))
  {
    hide ApuCycles, ApuCatchUp, ServicePendingCC;
    CatchUpInStep(e, b);
    ServiceInStep(e, b);
    ServiceInStep(e, ApuCatchUp(e, b));
  }

  lemma PortWriteInStep(e: Env, b: Bus, port: byte, v: byte)
    requires InStep(b)
    ensures CaughtUp(ApuPortWrite(e, b, port, v))
  {
    hide ApuCycles, ApuCatchUp, ServicePendingCC, BeforePortWrite;
    BeforeWriteInStep(e, b, port, v);
    var b1 := BeforePortWrite(e, b, port, v);
    var b2 := Emit(b1, ApuWrite(port, v));
    EmitStep(b1, ApuWrite(port, v));
    BeforeKeepsTotal(e, b, port, v);
    ServiceInStep(e, b2);
    var b3 := AfterPortWrite(e, b2, port, v);
    assert InStep(b3) && (CaughtUp(b2) ==> CaughtUp(b3));
    CatchUpInStep(e, b3.(pendingStrobe := false));
  }

  lemma BeforeKeepsTotal(e: Env, b: Bus, port: byte, v: byte)
    ensures BeforePortWrite(e, b, port, v).clk == b.clk
  {
    hide ApuCycles, ApuCatchUp, ServicePendingCC;
    CatchUpKeepsClock(e);
    ServiceKeepsClock(e);
  }

  // ---- Bus operations ----

  /** An access of the CPU to one of the four APU ports. */
  predicate TouchesApu(op: BusOp) {
    (op.OpRead? || op.OpWrite?) && SystemBank(op.bank) && 0x2140 <= op.off <= 0x217F
  }

  lemma ReadInStep(e: Env, b: Bus, bank: byte, off: word)
    requires InStep(b)
    ensures InStep(ReadSystem(e, b, bank, off).1)
    ensures 0x2140 <= off <= 0x217F ==> CaughtUp(ReadSystem(e, b, bank, off).1)
  {
    hide ApuCycles, ApuPortRead, ReadPpuSpace, ReadPort, ReadIoRegister, ReadCart, ReadNmiFlag, ReadTimeup,
      ReadDmaRegister;
    if 0x2140 <= off <= 0x217F { PortReadInStep(e, b, off % 4); }
    if 0x2100 <= off <= 0x213F { PpuReadInStep(e, b, off - 0x2100); }
    RegistersInStep(e, b, bank, off);
  }

  lemma PpuReadInStep(e: Env, b: Bus, reg: byte)
    requires InStep(b)
    ensures InStep(ReadPpuSpace(e, b, reg).1)
  {
    hide ApuCycles;
    EmitStep(b, PpuLatch(b.clk.frame % MCLK_PER_LINE / 4));
    var b1 := if reg == 0x37 then Emit(b, PpuLatch(b.clk.frame % MCLK_PER_LINE / 4)) else b;
    EmitStep(b1, PpuRead(reg));
  }

  lemma RegistersInStep(e: Env, b: Bus, bank: byte, off: word)
    requires InStep(b)
    ensures InStep(ReadPort(b).1) && InStep(ReadCart(e, b, bank, off).1)
    ensures IoReadAddress(off) ==> InStep(ReadIoRegister(b, off).1)
    ensures InStep(ReadNmiFlag(b).1) && InStep(ReadTimeup(b).1)
    ensures 0x4300 <= off <= 0x437F ==> InStep(ReadDmaRegister(b, off).1)
  {
    hide ApuCycles, CartRead, ReadReg;
  }

  lemma ControlInStep(e: Env, b: Bus, bank: byte, off: word, v: byte)
    requires InStep(b)
    ensures ApuCycles(WriteControl(e, b, bank, off, v).Mem().log) == b.apuBase
            == WriteControl(e, b, bank, off, v).apuBase
  {
    hide ApuCycles, KickDma, WriteReg, Channels, RecomputeIrqTarget, SetTimerRegister, NmiEdge;
    KickKeepsCycles(e, b, Channels(v));
  }

  lemma WriteInStep(e: Env, b: Bus, bank: byte, off: word, v: byte)
    requires InStep(b)
    ensures var b1 := WriteSystem(e, b, bank, off, v);
            ApuCycles(b1.Mem().log) == b1.apuBase && (b1.clk.total >= b.clk.total ==> InStep(b1))
    ensures 0x2140 <= off <= 0x217F ==> CaughtUp(WriteSystem(e, b, bank, off, v))
  {
    hide ApuCycles, ApuPortWrite, PpuWriteReg, BWrite, WriteControl;
    if 0x2140 <= off <= 0x217F { PortWriteInStep(e, b, off % 4, v); }
    if 0x2100 <= off <= 0x21FF { MemoryKeepsCycles(e, b.Mem(), off - 0x2100, v, 0, 0); }
    ControlInStep(e, b, bank, off, v);
  }

  lemma TickInStep(b: Bus, n: nat)
    requires InStep(b) && b.clk.total + n < TOTAL_RANGE
    ensures InStep(WithClock(b, AddMclk(b.clk, n)))
  {
    hide ApuCycles;
    TickTotal(b.clk, n);
  }

  lemma CpuReadInStep(e: Env, b: Bus, bank: byte, off: word)
    requires InStep(b) && b.clk.total + MemSpeed(bank, off, b.fastRom) < TOTAL_RANGE
    ensures InStep(Read(e, b, bank, off).1)
    ensures TouchesApu(OpRead(bank, off)) ==> CaughtUp(Read(e, b, bank, off).1)
  {
    hide ApuCycles, ReadSystem, ReadCart, AddMclk, MemSpeed;
    var b1 := WithClock(b, AddMclk(b.clk, MemSpeed(bank, off, b.fastRom)));
    TickInStep(b, MemSpeed(bank, off, b.fastRom));
    ReadInStep(e, b1, bank, off);
    RegistersInStep(e, b1, bank, off);
  }

  lemma CpuWriteInStep(e: Env, b: Bus, bank: byte, off: word, v: byte)
    requires InStep(b) && b.clk.total + MemSpeed(bank, off, b.fastRom) < TOTAL_RANGE
    requires Write(e, b, bank, off, v).clk.total >= AddMclk(b.clk, MemSpeed(bank, off, b.fastRom)).total
    ensures InStep(Write(e, b, bank, off, v))
    ensures TouchesApu(OpWrite(bank, off, v)) ==> CaughtUp(Write(e, b, bank, off, v))
  {
    hide ApuCycles, WriteSystem, AWrite, AddMclk, MemSpeed;
    var b1 := WithClock(b, AddMclk(b.clk, MemSpeed(bank, off, b.fastRom)));
    TickInStep(b, MemSpeed(bank, off, b.fastRom));
    WriteInStep(e, b1, bank, off, v);
    MemoryKeepsCycles(e, b1.Mem(), 0, v, bank, off);
  }

  /** While the 64-bit clock does not wrap, no bus operation lets the APU run ahead or lose a cycle. */
  lemma StepInStep(e: Env, b: Bus, op: BusOp) returns (n: nat)
    requires InStep(b)
    ensures n >= 6 && Elapsed(b.clk, Step(e, b, op).clk, n)
    ensures b.clk.total + n < TOTAL_RANGE ==> InStep(Step(e, b, op))
    ensures b.clk.total + n < TOTAL_RANGE && TouchesApu(op) ==> CaughtUp(Step(e, b, op))
  {
    hide ApuCycles, Read, Write, AddMclk, InStep, CaughtUp, MemSpeed;
    n := StepTime(e, b, op);
    if b.clk.total + n < TOTAL_RANGE {
      match op {
        case OpIdle =>
          TickTotal(b.clk, MCLK_PER_INTERNAL_CYCLE);
          TickInStep(b, MCLK_PER_INTERNAL_CYCLE);
        case OpRead(bank, off) =>
          TickWithin(e, b, op, n);
          CpuReadInStep(e, b, bank, off);
        case OpWrite(bank, off, v) =>
          TickWithin(e, b, op, n);
          TickTotal(b.clk, MemSpeed(bank, off, b.fastRom));
          CpuWriteInStep(e, b, bank, off, v);
      }
    }
  }

  /** The access cost is part of the operation's time, so it does not wrap on its own. */
  lemma TickWithin(e: Env, b: Bus, op: BusOp, n: nat)
    requires !op.OpIdle? && Elapsed(b.clk, Step(e, b, op).clk, n)
    ensures MemSpeed(op.bank, op.off, b.fastRom) <= n
  {
    hide ApuCycles, ReadSystem, ReadCart, WriteSystem, AWrite, AddMclk, NoFlag, Ticks;
    var m := MemSpeed(op.bank, op.off, b.fastRom);
    var b1 := WithClock(b, AddMclk(b.clk, m));
    TickTotal(b.clk, m);
    match op {
      case OpRead(bank, off) =>
        ReadKeepsClock(e, b1, bank, off);
        NoFlagFrame(ReadSystem(e, b1, bank, off).1.clk, b1.clk);
        CartKeepsClock(e, b1, bank, off);
      case OpWrite(bank, off, v) =>
        if SystemBank(bank) {
          if WritesTimer(op) {
            TimerWriteTime(e, b, op);
          } else if off == 0x420B {
            var incs := WriteTicks(e, b1, bank, v);
            TicksTime(b1.clk, incs);
          } else {
            WriteKeepsClock(e, b1, bank, off, v);
          }
        }
    }
  }

  lemma NoFlagFrame(c: Clock, d: Clock)
    requires NoFlag(c) == NoFlag(d)
    ensures c.frame == d.frame && c.total == d.total
  {
  }

  // ---- Runs ----

  lemma {:induction false} StepsInStep(e: Env, b: Bus, ops: seq<BusOp>) returns (n: nat)
    requires InStep(b)
    ensures Elapsed(b.clk, Steps(e, b, ops).clk, n)
    ensures ops != [] ==> n >= 6
    ensures b.clk.total + n < TOTAL_RANGE ==> InStep(Steps(e, b, ops))
    decreases ops
  {
    hide ApuCycles, Step;
    if ops == [] {
      n := 0;
    } else {
      var b1 := Step(e, b, ops[0]);
      var m := StepInStep(e, b, ops[0]);
      var r := StepsTime(e, b1, ops[1..]);
      ElapsedJoin(b.clk, b1.clk, Steps(e, b1, ops[1..]).clk, m, r);
      n := m + r;
      if b.clk.total + n < TOTAL_RANGE {
        var r2 := StepsInStep(e, b1, ops[1..]);
        ElapsedUnique(b1.clk, Steps(e, b1, ops[1..]).clk, r, r2);
      }
    }
  }

  lemma ElapsedUnique(c: Clock, d: Clock, m: nat, n: nat)
    requires Elapsed(c, d, m) && Elapsed(c, d, n)
    ensures m == n
  {
  }

  lemma {:induction false} CpuInStep(e: Env, b: Bus, script: Script, at: nat, target: nat, n: nat)
    requires InStep(b) && Elapsed(b.clk, RunCpu(e, b, script, at, target).0.clk, n)
    requires b.clk.total + n < TOTAL_RANGE
    ensures InStep(RunCpu(e, b, script, at, target).0)
    decreases if b.clk.frame < target then target - b.clk.frame else 0
  {
    hide ApuCycles, Execute;
    if b.clk.frame < target && !b.Faulted() && script(at).Instruction? {
      var b1 := Execute(e, b, script(at));
      ExecuteAdvances(e, b, script(at));
      var m := ExecuteInStep(e, b, script(at));
      var r := CpuTime(e, b1, script, at + 1, target);
      CpuInStep(e, b1, script, at + 1, target, r);
    }
  }

  lemma ExecuteInStep(e: Env, b: Bus, a: CpuAction) returns (n: nat)
    requires a.Instruction? && InStep(b)
    ensures Elapsed(b.clk, Execute(e, b, a).clk, n)
    ensures b.clk.total + n < TOTAL_RANGE ==> InStep(Execute(e, b, a))
  {
    hide ApuCycles;
    n := StepsInStep(e, if a.takesNmi then b.(nmiPending := false) else b, [a.first] + a.rest);
  }

  lemma OpenLineInStep(e: Env, b: Bus, line: nat)
    requires InStep(b)
    ensures InStep(LineHdma(e, OpenLine(e, b, line), line))
  {
    hide ApuCycles, InitChannels, HdmaChannels, FreshTarget, Bit;
    EmitStep(b, PpuBeginFrame);
    var b0 := if line == 0 then BeginFrame(e, b) else b;
    var b1 := StartLine(b0, line);
    EmitStep(b1, PpuSetLine(line));
    var b2 := Emit(b1, PpuSetLine(line));
    EmitStep(b2, PpuBeginVblank);
    InitMem(e, b2.hub.(ended := {}), 0);
    HdmaKeepsCycles(e, OpenLine(e, b, line).hub, 0);
  }

  /** At the end of every fault-free line the APU has received exactly the master clock. */
  lemma LineCatchesUp(e: Env, b: Bus, script: Script, at: nat, line: nat, n: nat)
    requires InStep(b) && Elapsed(b.clk, RunLine(e, b, script, at, line).0.clk, n)
    requires b.clk.total + n < TOTAL_RANGE && !RunLine(e, b, script, at, line).0.Faulted()
    ensures CaughtUp(RunLine(e, b, script, at, line).0)
  {
    hide ApuCycles, RunCpu, OpenLine, LineHdma, ApuCatchUp;
    var b1 := LineHdma(e, OpenLine(e, b, line), line);
    OpenLineInStep(e, b, line);
    OpenLineTime(e, b, line);
    var b2 := RunCpu(e, b1, script, at, (line + 1) * MCLK_PER_LINE).0;
    CloseLineTime(e, b2, line);
    CpuInStep(e, b1, script, at, (line + 1) * MCLK_PER_LINE, n);
    CatchUpInStep(e, b2);
    EmitStep(ApuCatchUp(e, b2), PpuRender(line));
  }

  lemma {:induction false} LinesCatchUp(e: Env, b: Bus, script: Script, at: nat, line: nat, n: nat)
    requires line < LINES_PER_FRAME && InStep(b) && b.clk.frame >= line * MCLK_PER_LINE
    requires !RunLines(e, b, script, at, line).0.Faulted()
    requires Elapsed(b.clk, RunLines(e, b, script, at, line).0.clk, n) && b.clk.total + n < TOTAL_RANGE
    ensures CaughtUp(RunLines(e, b, script, at, line).0)
    decreases LINES_PER_FRAME - line
  {
    hide ApuCycles, RunLine;
    var (b1, at1) := RunLine(e, b, script, at, line);
    var m := LineTime(e, b, script, at, line);
    var r := LinesTime(e, b1, script, at1, line + 1);
    LineCatchesUp(e, b, script, at, line, m);
    if line + 1 < LINES_PER_FRAME {
      LinesCatchUp(e, b1, script, at1, line + 1, r);
    }
  }

  /**
   APU telescoping: before the 64-bit clock wraps, a fault-free frame that starts with the APU in
   step ends with the sum of all its cycle deltas equal to the master clock.
   */
  lemma FrameCatchesUp(e: Env, c: CoreState, script: Script) returns (n: nat)
    requires InStep(c.bus) && !RunOneFrame(e, c, script).bus.Faulted()
    ensures Elapsed(CarryOver(c.bus).clk, RunOneFrame(e, c, script).bus.clk, n)
    ensures c.bus.clk.total + n < TOTAL_RANGE ==> CaughtUp(RunOneFrame(e, c, script).bus)
  {
    hide ApuCycles, RunLines;
    n := LinesTime(e, CarryOver(c.bus), script, c.at, 0);
    if c.bus.clk.total + n < TOTAL_RANGE {
      LinesCatchUp(e, CarryOver(c.bus), script, c.at, 0, n);
    }
  }

  /** Master clocks since power-on as an unbounded number: the frame clock and the frames subtracted. */
  function Uptime(c: CoreState, k: nat): int { c.bus.clk.frame + (k - 1) * MCLK_PER_FRAME }

  lemma FrameUptime(e: Env, c: CoreState, script: Script, k: nat, n: nat)
    requires k >= 1 && c.bus.clk.frame >= MCLK_PER_FRAME
             && Elapsed(CarryOver(c.bus).clk, RunOneFrame(e, c, script).bus.clk, n)
    ensures Uptime(RunOneFrame(e, c, script), k + 1) == Uptime(c, k) + n
  {
    hide RunOneFrame;
  }

  /**
   APU telescoping over a whole run: as long as the 64-bit clock has not wrapped, after any number of
   fault-free frames the cycles given to the APU add up to the master clock.
   */
  lemma {:induction false} RunCatchesUp(e: Env, c: CoreState, script: Script, k: nat)
    requires k >= 1 && PowerOn(c) && InStep(c.bus) && !RunFrames(e, c, script, k).bus.Faulted()
    requires Uptime(RunFrames(e, c, script, k), k) < TOTAL_RANGE
    ensures CaughtUp(RunFrames(e, c, script, k).bus)
    decreases k
  {
    hide ApuCycles, RunOneFrame, CarryOver;
    var before := RunFrames(e, c, script, k - 1);
    FaultLatches(e, before, script);
    FrameTimeConserved(e, c, script, k);
    if k == 1 {
      var n := FrameCatchesUp(e, c, script);
      FirstCarry(c);
    } else {
      FrameTimeConserved(e, c, script, k - 1);
      var n := ElapsedFrame(e, before, script);
      FrameUptime(e, before, script, k - 1, n);
      RunCatchesUp(e, c, script, k - 1);
      var m := FrameCatchesUp(e, before, script);
      ElapsedUnique(CarryOver(before.bus).clk, RunOneFrame(e, before, script).bus.clk, m, n);
    }
  }

  lemma FirstCarry(c: CoreState)
    requires PowerOn(c)
    ensures CarryOver(c.bus) == c.bus
  {
  }

  lemma ElapsedFrame(e: Env, c: CoreState, script: Script) returns (n: nat)
    requires !RunOneFrame(e, c, script).bus.Faulted()
    ensures Elapsed(CarryOver(c.bus).clk, RunOneFrame(e, c, script).bus.clk, n)
  {
    hide RunLines;
    n := LinesTime(e, CarryOver(c.bus), script, c.at, 0);
  }
}
