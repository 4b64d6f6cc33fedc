/**
 The frame as the devices see it: which line events a fault-free frame sends, in which order, and
 when the vertical-blank flag rises.
 */
module Schedule {
  import opened Timing
  import opened Clock
  import opened Memory
  import opened Dma
  import opened DmaResults
  import opened Hdma
  import opened IoUnit
  import opened BusOps
  import opened BusTime
  import opened CpuPorts
  import opened Frame

  /** The events only the frame scheduler sends. */
  predicate OfSchedule(ev: DevEvent) { ev.PpuBeginFrame? || ev.PpuSetLine? || ev.PpuBeginVblank? || ev.PpuRender? }

  function Scheduled(log: Log): Log {
    if log == [] then []
    else
      var last := log[|log| - 1];
      Scheduled(log[..|log| - 1]) + (if OfSchedule(last) then [last] else [])
  }

  lemma ScheduledAppend(log: Log, ev: DevEvent)
    ensures Scheduled(log + [ev]) == Scheduled(log) + (if OfSchedule(ev) then [ev] else [])
  {
    assert (log + [ev])[..|log|] == log;
  }

  // ---- Traffic of the CPU, DMA and HDMA is none of the scheduler's ----

  predicate Unscheduled(m: Mem, n: Mem) { Scheduled(n.log) == Scheduled(m.log) }

  lemma MemoryUnscheduled(e: Env, m: Mem, reg: byte, v: byte, bank: byte, off: word)
    ensures Unscheduled(m, BWrite(e, m, reg, v)) && Unscheduled(m, BRead(e, m, reg).1)
    ensures Unscheduled(m, AWrite(m, bank, off, v)) && Unscheduled(m, PpuWriteReg(e, m, reg, v))
    ensures Unscheduled(m, PpuReadReg(e, m, reg).1)
  {
    hide Scheduled;
    ScheduledAppend(m.log, PpuWrite(reg, v));
    ScheduledAppend(m.log, PpuRead(reg));
    ScheduledAppend(m.log, ApuRead(reg % 4));
    ScheduledAppend(m.log, ApuWrite(reg % 4, v));
  }

  lemma MoveUnscheduled(e: Env, m: Mem, mv: Move)
    ensures Unscheduled(m, Perform(e, m, mv))
  {
    hide Scheduled, BWrite, BRead, AWrite, ARead;
    MemoryUnscheduled(e, m, mv.reg, ARead(e, m, mv.bank, mv.off), mv.bank, mv.off);
    var (v, m1) := BRead(e, m, mv.reg);
    MemoryUnscheduled(e, m1, mv.reg, v, mv.bank, mv.off);
  }

  lemma {:induction false} MovesUnscheduled(e: Env, m: Mem, moves: seq<Move>)
    ensures Unscheduled(m, PerformAll(e, m, moves).0)
    decreases moves
  {
    hide Scheduled, Perform;
    if moves != [] && m.fault.None? {
      MoveUnscheduled(e, m, moves[0]);
      MovesUnscheduled(e, Perform(e, m, moves[0]), moves[1..]);
    }
  }

  lemma KickUnscheduled(e: Env, b: Bus, mask: set<nat>)
    ensures Unscheduled(b.Mem(), KickDma(e, b, mask).Mem())
  {
    hide Scheduled, ExecuteDma, KickPlan, PerformAll, Observable, AddMclk;
    var k := Kick(b.clk, b.hub.mem, b.hub.ch);
    ExecuteDmaExact(e, k, mask);
    MovesUnscheduled(e, k.mem, KickPlan(k.ch, mask, 0));
  }

  lemma {:induction false} UnitUnscheduled(e: Env, b: Hub, i: nat, p: nat)
    requires i < 8
    ensures Unscheduled(b.mem, MoveUnit(e, b, i, p).mem)
    decreases |UnitPattern(b.ch[i].dmap)| - p
  {
    hide Scheduled, BWrite, ARead;
    if p < |UnitPattern(b.ch[i].dmap)| {
      var c := b.ch[i];
      var v := if c.Indirect() then ARead(e, b.mem, c.dasb, c.das) else ARead(e, b.mem, c.a1b, c.a2a);
      MemoryUnscheduled(e, b.mem, BReg(c.bbad, UnitPattern(c.dmap)[p]), v, 0, 0);
      UnitUnscheduled(e, MoveUnitByte(e, b, i, p), i, p + 1);
    }
  }

  lemma {:induction false} HdmaUnscheduled(e: Env, b: Hub, i: nat)
    requires i <= 8
    ensures Unscheduled(b.mem, HdmaChannels(e, b, i).mem)
    decreases 8 - i
  {
    hide Scheduled, MoveUnit, LoadEntry, CloseLine;
    if i < 8 {
      if Serviced(b, i) && b.mem.fault.None? {
        UnitUnscheduled(e, b, i, 0);
        var b1 := if b.state[i].doTransfer then MoveUnit(e, b, i, 0) else b;
        CloseKeepsMem(e, b1, i);
        HdmaUnscheduled(e, ServiceChannel(e, b, i), i + 1);
      } else if !Serviced(b, i) {
        HdmaUnscheduled(e, b, i + 1);
      }
    }
  }

  lemma CloseKeepsMem(e: Env, b: Hub, i: nat)
    requires i < 8
    ensures CloseLine(e, b, i).mem == b.mem
  {
  }

  lemma {:induction false} InitKeepsMem(e: Env, b: Hub, i: nat)
    requires i <= 8
    ensures InitChannels(e, b, i).mem == b.mem
    decreases 8 - i
  {
    if i < 8 {
      if i in b.hdmaen {
        InitKeepsMem(e, LoadEntry(e, b.(ch := b.ch[i := b.ch[i].(a2a := b.ch[i].a1t)]), i), i + 1);
      } else {
        InitKeepsMem(e, b.(state := b.state[i := INACTIVE]), i + 1);
      }
    }
  }

  lemma EmitUnscheduled(b: Bus, ev: DevEvent)
    ensures Scheduled(Emit(b, ev).Mem().log) == Scheduled(b.Mem().log) + (if OfSchedule(ev) then [ev] else [])
  {
    hide Scheduled;
    ScheduledAppend(b.Mem().log, ev);
  }

  lemma CatchUpUnscheduled(e: Env, b: Bus)
    ensures Unscheduled(b.Mem(), ApuCatchUp(e, b).Mem())
    ensures ApuCatchUp(e, b).vblankStart == b.vblankStart
  {
    hide Scheduled;
    if b.apuBase < b.clk.total {
      EmitUnscheduled(b.(apuBase := b.clk.total), ApuAdvance(b.clk.total - b.apuBase));
    }
  }

  lemma ServiceUnscheduled(e: Env, b: Bus)
    ensures Unscheduled(b.Mem(), ServicePendingCC(e, b).Mem())
  {
    hide Scheduled;
    EmitUnscheduled(b.(pendingCC := false), ApuStep);
  }

  lemma PortReadUnscheduled(e: Env, b: Bus, port: byte)
    ensures Unscheduled(b.Mem(), ApuPortRead(e, b, port).1.Mem())
  {
    hide Scheduled, ApuCatchUp, ServicePendingCC;
    CatchUpUnscheduled(e, b);
    ServiceUnscheduled(e, ApuCatchUp(e, b));
    EmitUnscheduled(ServicePendingCC(e, ApuCatchUp(e, b)), ApuRead(port));
  }

  lemma PortWriteUnscheduled(e: Env, b: Bus, port: byte, v: byte)
    ensures Unscheduled(b.Mem(), ApuPortWrite(e, b, port, v).Mem())
  {
    hide Scheduled, ApuCatchUp, ServicePendingCC;
    CatchUpUnscheduled(e, b);
    ServiceUnscheduled(e, b);
    ServiceUnscheduled(e, ApuCatchUp(e, b));
    var b1 := BeforePortWrite(e, b, port, v);
    EmitUnscheduled(b1, ApuWrite(port, v));
    var b2 := Emit(b1, ApuWrite(port, v));
    ServiceUnscheduled(e, b2);
    CatchUpUnscheduled(e, AfterPortWrite(e, b2, port, v).(pendingStrobe := false));
  }

  lemma PlainReadsUnscheduled(e: Env, b: Bus, bank: byte, off: word, reg: byte)
    ensures Unscheduled(b.Mem(), ReadPort(b).1.Mem())
    ensures IoReadAddress(off) ==> Unscheduled(b.Mem(), ReadIoRegister(b, off).1.Mem())
    ensures Unscheduled(b.Mem(), ReadCart(e, b, bank, off).1.Mem())
            && Unscheduled(b.Mem(), ReadPpuSpace(e, b, reg).1.Mem())
  {
    hide Scheduled, CartRead, PpuReadReg;
    EmitUnscheduled(b, PpuLatch(b.clk.frame % MCLK_PER_LINE / 4));
    var b1 := if reg == 0x37 then Emit(b, PpuLatch(b.clk.frame % MCLK_PER_LINE / 4)) else b;
    MemoryUnscheduled(e, b1.Mem(), reg, 0, 0, 0);
  }

  lemma ReadUnscheduled(e: Env, b: Bus, bank: byte, off: word)
    ensures Unscheduled(b.Mem(), ReadSystem(e, b, bank, off).1.Mem())
  {
    hide Scheduled, ApuPortRead, ReadPpuSpace, ReadPort, ReadIoRegister, ReadCart, ReadReg;
    PortReadUnscheduled(e, b, off % 4);
    PlainReadsUnscheduled(e, b, bank, off, if 0x2100 <= off <= 0x213F then off - 0x2100 else 0);
  }

  lemma ControlUnscheduled(e: Env, b: Bus, bank: byte, off: word, v: byte)
    ensures Unscheduled(b.Mem(), WriteControl(e, b, bank, off, v).Mem())
  {
    hide Scheduled, KickDma, WriteReg, Channels, RecomputeIrqTarget, SetTimerRegister, NmiEdge, WriteHdmaen;
    KickUnscheduled(e, b, Channels(v));
    MaskKeepsMem(b.hub, Channels(v));
  }

  lemma MaskKeepsMem(b: Hub, enable: set<nat>)
    ensures WriteHdmaen(b, enable).mem == b.mem
  {
  }

  lemma WriteUnscheduled(e: Env, b: Bus, bank: byte, off: word, v: byte)
    ensures Unscheduled(b.Mem(), WriteSystem(e, b, bank, off, v).Mem())
  {
    hide Scheduled, ApuPortWrite, PpuWriteReg, BWrite, WriteControl;
    PortWriteUnscheduled(e, b, off % 4, v);
    if 0x2100 <= off <= 0x21FF { MemoryUnscheduled(e, b.Mem(), off - 0x2100, v, 0, 0); }
    ControlUnscheduled(e, b, bank, off, v);
  }

  lemma StepUnscheduled(e: Env, b: Bus, op: BusOp)
    ensures Unscheduled(b.Mem(), Step(e, b, op).Mem())
  {
    hide Scheduled, ReadSystem, WriteSystem, ReadCart, AWrite, AddMclk, MemSpeed;
    match op {
      case OpIdle =>
      case OpRead(bank, off) =>
        var b1 := WithClock(b, AddMclk(b.clk, MemSpeed(bank, off, b.fastRom)));
        ReadUnscheduled(e, b1, bank, off);
        PlainReadsUnscheduled(e, b1, bank, off, 0);
      case OpWrite(bank, off, v) =>
        var b1 := WithClock(b, AddMclk(b.clk, MemSpeed(bank, off, b.fastRom)));
        WriteUnscheduled(e, b1, bank, off, v);
        MemoryUnscheduled(e, b1.Mem(), 0, v, bank, off);
    }
  }

  lemma {:induction false} StepsUnscheduled(e: Env, b: Bus, ops: seq<BusOp>)
    ensures Unscheduled(b.Mem(), Steps(e, b, ops).Mem()) && Steps(e, b, ops).vblankStart == b.vblankStart
    decreases ops
  {
    hide Scheduled, Step;
    if ops != [] {
      StepUnscheduled(e, b, ops[0]);
      StepKeepsNmi(e, b, ops[0]);
      StepsUnscheduled(e, Step(e, b, ops[0]), ops[1..]);
    }
  }

  lemma {:induction false} CpuUnscheduled(e: Env, b: Bus, script: Script, at: nat, target: nat)
    ensures Unscheduled(b.Mem(), RunCpu(e, b, script, at, target).0.Mem())
    ensures RunCpu(e, b, script, at, target).0.vblankStart == b.vblankStart
    decreases if b.clk.frame < target then target - b.clk.frame else 0
  {
    hide Scheduled, Steps;
    if b.clk.frame < target && !b.Faulted() && script(at).Instruction? {
      var a := script(at);
      StepsUnscheduled(e, if a.takesNmi then b.(nmiPending := false) else b, [a.first] + a.rest);
      ExecuteAdvances(e, b, a);
      CpuUnscheduled(e, Execute(e, b, a), script, at + 1, target);
    }
  }

  // ---- Lines ----

  /** What the scheduler sends for a line other than the first, with vertical blank starting at `vblank`. */
  function LineEvents(line: nat, vblank: nat): Log {
    if line == vblank then [PpuSetLine(line), PpuBeginVblank]
    else if 1 <= line < vblank then [PpuSetLine(line), PpuRender(line)]
    else [PpuSetLine(line)]
  }

  function LinesEvents(from: nat, end: nat, vblank: nat): Log
    decreases end
  {
    if end <= from then [] else LinesEvents(from, end - 1, vblank) + LineEvents(end - 1, vblank)
  }

  lemma {:induction false} LinesEventsFirst(from: nat, end: nat, vblank: nat)
    requires from < end
    ensures LinesEvents(from, end, vblank) == LineEvents(from, vblank) + LinesEvents(from + 1, end, vblank)
    decreases end
  {
    hide LineEvents;
    if from + 1 < end {
      LinesEventsFirst(from, end - 1, vblank);
      var (x, y, z) := (LineEvents(from, vblank), LinesEvents(from + 1, end - 1, vblank), LineEvents(end - 1, vblank));
      assert x + y + z == x + (y + z);
    } else {
      assert LinesEvents(from, from, vblank) == [] && LinesEvents(from + 1, end, vblank) == [];
      assert [] + LineEvents(from, vblank) == LineEvents(from, vblank) + [];
    }
  }

  /** The line vertical blank starts on, as the picture unit says when the frame has begun. */
  function VblankLine(e: Env, log: Log): nat { if e.overscan(log + [PpuBeginFrame]) then 240 else 225 }

  lemma OpenLineScheduled(e: Env, b: Bus, line: nat)
    ensures var b1 := OpenLine(e, b, line);
            && (line > 0 ==>
                  && b1.vblankStart == b.vblankStart
                  && Scheduled(b1.Mem().log) == Scheduled(b.Mem().log)
                       + (if line == b.vblankStart then [PpuSetLine(line), PpuBeginVblank] else [PpuSetLine(line)]))
            && (line == 0 ==>
                  && b1.vblankStart == VblankLine(e, b.Mem().log)
                  && Scheduled(b1.Mem().log) == Scheduled(b.Mem().log) + [PpuBeginFrame, PpuSetLine(0)])
  {
    hide Scheduled, InitChannels, LineClock, Bit;
    EmitUnscheduled(b, PpuBeginFrame);
    var b0 := if line == 0 then BeginFrame(e, b) else b;
    var b1 := StartLine(b0, line);
    EmitUnscheduled(b1, PpuSetLine(line));
    var b2 := Emit(b1, PpuSetLine(line));
    EmitUnscheduled(b2, PpuBeginVblank);
    InitKeepsMem(e, b2.hub.(ended := {}), 0);
    var s := Scheduled(b.Mem().log);
    assert s + [PpuBeginFrame] + [PpuSetLine(0)] == s + [PpuBeginFrame, PpuSetLine(0)];
    assert s + [PpuSetLine(line)] + [PpuBeginVblank] == s + [PpuSetLine(line), PpuBeginVblank];
  }

  lemma LineHdmaUnscheduled(e: Env, b: Bus, line: nat)
    ensures Unscheduled(b.Mem(), LineHdma(e, b, line).Mem()) && LineHdma(e, b, line).vblankStart == b.vblankStart
  {
    hide Scheduled, HdmaChannels;
    HdmaUnscheduled(e, b.hub, 0);
  }

  lemma CloseLineScheduled(e: Env, b: Bus, line: nat)
    requires !CloseFrameLine(e, b, line).Faulted()
    ensures Scheduled(CloseFrameLine(e, b, line).Mem().log)
            == Scheduled(b.Mem().log) + (if 1 <= line < b.vblankStart then [PpuRender(line)] else [])
    ensures CloseFrameLine(e, b, line).vblankStart == b.vblankStart
  {
    hide Scheduled, ApuCatchUp;
    CatchUpUnscheduled(e, b);
    EmitUnscheduled(ApuCatchUp(e, b), PpuRender(line));
  }

  lemma LineScheduled(e: Env, b: Bus, script: Script, at: nat, line: nat)
    requires !RunLine(e, b, script, at, line).0.Faulted()
    ensures var b1 := RunLine(e, b, script, at, line).0;
            && (line > 0 ==>
                  && b1.vblankStart == b.vblankStart
                  && Scheduled(b1.Mem().log) == Scheduled(b.Mem().log) + LineEvents(line, b.vblankStart))
            && (line == 0 ==>
                  && b1.vblankStart == VblankLine(e, b.Mem().log)
                  && Scheduled(b1.Mem().log) == Scheduled(b.Mem().log) + [PpuBeginFrame, PpuSetLine(0)])
  {
    hide Scheduled, OpenLine, LineHdma, RunCpu, CloseFrameLine;
    var b0 := OpenLine(e, b, line);
    var b1 := LineHdma(e, b0, line);
    OpenLineScheduled(e, b, line);
    LineHdmaUnscheduled(e, b0, line);
    CpuUnscheduled(e, b1, script, at, (line + 1) * MCLK_PER_LINE);
    var b2 := RunCpu(e, b1, script, at, (line + 1) * MCLK_PER_LINE).0;
    CloseLineScheduled(e, b2, line);
    var s := Scheduled(b.Mem().log);
    assert s + [PpuSetLine(line)] + [PpuRender(line)] == s + [PpuSetLine(line), PpuRender(line)];
  }

  lemma {:induction false} LinesScheduled(e: Env, b: Bus, script: Script, at: nat, line: nat)
    requires 0 < line <= LINES_PER_FRAME && !RunLines(e, b, script, at, line).0.Faulted()
    ensures var b1 := RunLines(e, b, script, at, line).0;
            && b1.vblankStart == b.vblankStart
            && Scheduled(b1.Mem().log) == Scheduled(b.Mem().log) + LinesEvents(line, LINES_PER_FRAME, b.vblankStart)
    decreases LINES_PER_FRAME - line
  {
    hide Scheduled, RunLine, LinesEvents, LineEvents;
    if line == LINES_PER_FRAME {
      NoLines(line, b.vblankStart);
    } else {
      var (b1, at1) := RunLine(e, b, script, at, line);
      LineScheduled(e, b, script, at, line);
      LinesScheduled(e, b1, script, at1, line + 1);
      LinesEventsFirst(line, LINES_PER_FRAME, b.vblankStart);
    }
  }

  lemma NoLines(line: nat, vblank: nat)
    ensures LinesEvents(line, line, vblank) == []
  {
  }

  /**
   The schedule of a fault-free frame, whatever the CPU, DMA and HDMA do in it: the frame is begun, the
   262 lines are set in order, lines 1 up to vertical blank are drawn, each once and right after its own
   line was set, and vertical blank begins once, on line 225 or 240.
   */
  lemma FrameSchedule(e: Env, c: CoreState, script: Script)
    requires !RunOneFrame(e, c, script).bus.Faulted()
    ensures var b := RunOneFrame(e, c, script).bus;
            && b.vblankStart == (if e.overscan(c.bus.Mem().log + [PpuBeginFrame]) then 240 else 225)
            && Scheduled(b.Mem().log)
               == Scheduled(c.bus.Mem().log) + [PpuBeginFrame, PpuSetLine(0)] + LinesEvents(1, 262, b.vblankStart)
  {
    hide Scheduled, RunLine, LinesEvents;
    var b := CarryOver(c.bus);
    var (b1, at1) := RunLine(e, b, script, c.at, 0);
    LineScheduled(e, b, script, c.at, 0);
    LinesScheduled(e, b1, script, at1, 1);
  }

  // ---- The vertical-blank flag ----

  /** The step neither reads $4210 nor writes $4200 nor takes the interrupt. */
  predicate LeavesNmi(a: CpuAction) {
    a.Instruction? ==>
      !a.takesNmi && forall op :: op in [a.first] + a.rest ==> !Reads(op, 0x4210) && !Writes(op, 0x4200)
  }

  ghost predicate LeavesNmiBetween(script: Script, from: nat, end: nat) {
    forall at: nat :: from <= at < end ==> LeavesNmi(script(at))
  }

  predicate SameNmiState(b: Bus, r: Bus) { SameNmi(b, r) && r.clk.nmitimen == b.clk.nmitimen }

  lemma {:induction false} StepsLeaveNmi(e: Env, b: Bus, ops: seq<BusOp>)
    requires forall op :: op in ops ==> !Reads(op, 0x4210) && !Writes(op, 0x4200)
    ensures SameNmiState(b, Steps(e, b, ops))
    decreases ops
  {
    hide Step, Reads, Writes;
    if ops != [] {
      StepKeepsNmi(e, b, ops[0]);
      StepsLeaveNmi(e, Step(e, b, ops[0]), ops[1..]);
    }
  }

  lemma {:induction false} CpuLeavesNmi(e: Env, b: Bus, script: Script, at: nat, target: nat)
    requires LeavesNmiBetween(script, at, RunCpu(e, b, script, at, target).1)
    ensures SameNmiState(b, RunCpu(e, b, script, at, target).0)
    decreases if b.clk.frame < target then target - b.clk.frame else 0
  {
    hide Steps, Reads, Writes;
    if b.clk.frame < target && !b.Faulted() && script(at).Instruction? {
      var a := script(at);
      ExecuteAdvances(e, b, a);
      CpuMovesOn(e, Execute(e, b, a), script, at + 1, target);
      StepsLeaveNmi(e, b, [a.first] + a.rest);
      CpuLeavesNmi(e, Execute(e, b, a), script, at + 1, target);
    }
  }

  /** Line 0 lowers the flag; the blanking line raises it, with an edge when the interrupt is enabled. */
  lemma LineFlag(e: Env, b: Bus, script: Script, at: nat, line: nat)
    requires LeavesNmiBetween(script, at, RunLine(e, b, script, at, line).1)
    requires !RunLine(e, b, script, at, line).0.Faulted()
    ensures var b1 := RunLine(e, b, script, at, line).0;
            var enters := line > 0 && line == b.vblankStart;
            && b1.nmiFlag == (line > 0 && (b.nmiFlag || enters))
            && b1.nmiPending == (b.nmiPending || (enters && b.clk.nmitimen >= 0x80))
            && b1.clk.nmitimen == b.clk.nmitimen
  {
    hide OpenLine, LineHdma, RunCpu, CloseFrameLine;
    var b1 := LineHdma(e, OpenLine(e, b, line), line);
    OpenLineFlag(e, b, line);
    CpuLeavesNmi(e, b1, script, at, (line + 1) * MCLK_PER_LINE);
    CloseLineFlag(e, RunCpu(e, b1, script, at, (line + 1) * MCLK_PER_LINE).0, line);
  }

  predicate EntersAs(b: Bus, b1: Bus, line: nat) {
    var enters := line > 0 && line == b.vblankStart;
    && b1.nmiFlag == (line > 0 && (b.nmiFlag || enters))
    && b1.nmiPending == (b.nmiPending || (enters && b.clk.nmitimen >= 0x80))
    && b1.clk.nmitimen == b.clk.nmitimen
  }

  lemma StartLineFlag(b: Bus, line: nat, vblank: nat)
    requires line > 0 ==> vblank == b.vblankStart
    ensures EntersAs(b, StartLine(b.(vblankStart := vblank), line), line)
  {
    hide FreshTarget;
  }

  lemma OpenAfterStart(e: Env, b: Bus, line: nat)
    ensures var b0 := if line == 0 then BeginFrame(e, b) else b;
            OpenLine(e, b, line) == StartLine(b0, line).(hub := OpenLine(e, b, line).hub)
  {
    hide InitHdma, StartLine, BeginFrame;
  }

  lemma BeginKeeps(e: Env, b: Bus)
    ensures var b0 := BeginFrame(e, b); b0 == b.(hub := b0.hub, vblankStart := b0.vblankStart, io := b0.io)
  {
  }

  lemma HdmaKeepsRest(e: Env, b: Bus, line: nat)
    ensures LineHdma(e, b, line) == b.(hub := LineHdma(e, b, line).hub)
  {
    hide ExecuteHdma;
  }

  lemma OpenLineFlag(e: Env, b: Bus, line: nat)
    ensures EntersAs(b, LineHdma(e, OpenLine(e, b, line), line), line)
  {
    hide OpenLine, LineHdma, StartLine, BeginFrame, Bit;
    var b0 := if line == 0 then BeginFrame(e, b) else b;
    BeginKeeps(e, b);
    OpenAfterStart(e, b, line);
    HdmaKeepsRest(e, OpenLine(e, b, line), line);
    StartLineFlag(b0, line, b0.vblankStart);
    assert b0.(vblankStart := b0.vblankStart) == b0;
  }

  lemma CloseLineFlag(e: Env, b: Bus, line: nat)
    ensures SameNmiState(b, CloseFrameLine(e, b, line))
  {
    hide ApuCatchUp;
    CatchUpKeepsNmi(e);
    CatchUpKeepsClock(e);
  }

  lemma {:induction false} LinesFlag(e: Env, b: Bus, script: Script, at: nat, line: nat)
    requires 0 < line <= LINES_PER_FRAME && !RunLines(e, b, script, at, line).0.Faulted()
    requires LeavesNmiBetween(script, at, RunLines(e, b, script, at, line).1)
    ensures var b1 := RunLines(e, b, script, at, line).0;
            var enters := line <= b.vblankStart < LINES_PER_FRAME;
            && b1.nmiFlag == (b.nmiFlag || enters)
            && b1.nmiPending == (b.nmiPending || (enters && b.clk.nmitimen >= 0x80))
    decreases LINES_PER_FRAME - line
  {
    hide RunLine, LeavesNmi, Scheduled, LineEvents;
    if line < LINES_PER_FRAME {
      var (b1, at1) := RunLine(e, b, script, at, line);
      LineMovesOn(e, b, script, at, line);
      LinesMoveOn(e, b1, script, at1, line + 1);
      LineFlag(e, b, script, at, line);
      LineScheduled(e, b, script, at, line);
      LinesFlag(e, b1, script, at1, line + 1);
    }
  }

  /**
   One edge a frame: a program that leaves $4210, $4200 and the interrupt alone for a fault-free frame
   ends it with the vertical-blank flag up, whatever it was before, and with an interrupt pending just
   when one was or the enable bit is set.
   */
  lemma VblankOnce(e: Env, c: CoreState, script: Script)
    requires !RunOneFrame(e, c, script).bus.Faulted()
    requires LeavesNmiBetween(script, c.at, RunOneFrame(e, c, script).at)
    ensures var b := RunOneFrame(e, c, script).bus;
            && b.nmiFlag && b.nmiPending == (c.bus.nmiPending || c.bus.clk.nmitimen >= 0x80)
  {
    hide RunLine, LeavesNmi, Scheduled;
    var b := CarryOver(c.bus);
    var (b1, at1) := RunLine(e, b, script, c.at, 0);
    LineMovesOn(e, b, script, c.at, 0);
    LinesMoveOn(e, b1, script, at1, 1);
    LineFlag(e, b, script, c.at, 0);
    LineScheduled(e, b, script, c.at, 0);
    LinesFlag(e, b1, script, at1, 1);
  }
}
