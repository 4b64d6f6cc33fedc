/** The core as the object the host drives: `RunOneFrame` and its loops, proved equal to the frame scheduler. */
module CoreLoop {
  import opened Timing
  import opened Memory
  import opened Hdma
  import opened BusOps
  import opened Frame
  import SystemBus

  class Core {
    const bus: SystemBus.SysBus
    var at: nat
    var frame: nat
    var front: Log

    constructor (bus: SystemBus.SysBus)
      requires bus.Valid()
      ensures this.bus == bus && Valid()
      ensures Now() == CoreState(bus.Now(), 0, 0, [])
    {
      this.bus := bus;
      at, frame, front := 0, 0, [];
    }

    ghost predicate Valid() { bus.Valid() }

    ghost function Now(): CoreState
      requires Valid()
      reads this, bus, bus.wram, bus.sram, bus.ch, bus.state
    {
      CoreState(bus.Now(), at, frame, front)
    }

    method Operate(op: BusOp)
      requires Valid()
      modifies bus, bus.wram, bus.sram, bus.ch, bus.state
      ensures bus.Now() == Step(bus.e, old(bus.Now()), op)
    {
      hide BusOps.Read, BusOps.Write, BusOps.Idle;
      match op {
        case OpRead(bank, off) => var v := bus.CpuRead(bank, off);
        case OpWrite(bank, off, v) => bus.CpuWrite(bank, off, v);
        case OpIdle => bus.CpuIdle();
      }
    }

    method RunInstruction(a: CpuAction)
      requires Valid() && a.Instruction?
      modifies bus, bus.wram, bus.sram, bus.ch, bus.state
      ensures bus.Now() == Execute(bus.e, old(bus.Now()), a)
    {
      hide Step;
      ghost var goal := Execute(bus.e, bus.Now(), a);
      if a.takesNmi { bus.nmiPending := false; }
      var ops := [a.first] + a.rest;
      for i := 0 to |ops|
        invariant Steps(bus.e, bus.Now(), ops[i..]) == goal
      {
        assert ops[i..][0] == ops[i] && ops[i..][1..] == ops[i + 1..];
        Operate(ops[i]);
      }
      assert ops[|ops|..] == [];
    }

    method StopCpu()
      requires Valid()
      modifies bus`fault
      ensures bus.Now() == Raise(old(bus.Now()), CpuStopped) && bus.fault.Some?
    {
      bus.RaiseFault(CpuStopped);
    }

    method RunCpuUntil(script: Script, target: nat)
      requires Valid()
      modifies this`at, bus, bus.wram, bus.sram, bus.ch, bus.state
      ensures (bus.Now(), at) == RunCpu(bus.e, old(bus.Now()), script, old(at), target)
    {
      hide Execute, Raise;
      ghost var goal := RunCpu(bus.e, bus.Now(), script, at, target);
      while bus.mclkFrame < target && bus.fault.None?
        invariant RunCpu(bus.e, bus.Now(), script, at, target) == goal
        decreases if bus.mclkFrame < target then target - bus.mclkFrame else 0
      {
        var a := script(at);
        if a.Stopped? {
          StopCpu();
          at := at + 1;
          RunStops(bus.e, bus.Now(), script, at, target);
          break;
        }
        ExecuteAdvances(bus.e, bus.Now(), a);
        RunInstruction(a);
        at := at + 1;
      }
    }

    method StartFrame()
      requires Valid()
      modifies bus`log, bus`vblankStart, bus`io
      ensures bus.Now() == BeginFrame(bus.e, old(bus.Now()))
    {
      bus.io := bus.io.(joypad := bus.io.joypad.(pad := bus.e.pad(bus.log) % 0x1000));
      bus.Log(PpuBeginFrame);
      bus.vblankStart := if bus.e.overscan(bus.log) then 240 else 225;
    }

    method OpenScanline(line: nat)
      requires Valid()
      modifies bus, bus.ch, bus.state
      ensures bus.Now() == OpenLine(bus.e, old(bus.Now()), line)
    {
      hide BeginFrame, StartLine, InitHdma;
      if line == 0 { StartFrame(); }
      bus.BeginLine(line);
      bus.Log(PpuSetLine(line));
      if line == 0 {
        bus.StartHdma();
      } else if line == bus.vblankStart {
        bus.Log(PpuBeginVblank);
      }
    }

    method ScanlineHdma(line: nat)
      requires Valid()
      modifies bus, bus.wram, bus.ch, bus.state
      ensures bus.Now() == LineHdma(bus.e, old(bus.Now()), line)
    {
      hide ExecuteHdma;
      if FIRST_VISIBLE_LINE <= line < bus.vblankStart { bus.RunHdma(); }
    }

    method CloseScanline(line: nat)
      requires Valid()
      modifies bus`log, bus`fault, bus`apuBase
      ensures bus.Now() == CloseFrameLine(bus.e, old(bus.Now()), line)
    {
      hide ApuCatchUp;
      bus.CatchUpApu();
      if bus.fault.None? && FIRST_VISIBLE_LINE <= line < bus.vblankStart { bus.Log(PpuRender(line)); }
    }

    method RunScanline(script: Script, line: nat)
      requires Valid()
      modifies this`at, bus, bus.wram, bus.sram, bus.ch, bus.state
      ensures (bus.Now(), at) == RunLine(bus.e, old(bus.Now()), script, old(at), line)
    {
      hide OpenLine, LineHdma, RunCpu, CloseFrameLine;
      OpenScanline(line);
      ScanlineHdma(line);
      if bus.fault.Some? { return; }
      RunCpuUntil(script, (line + 1) * MCLK_PER_LINE);
      if bus.fault.Some? { return; }
      CloseScanline(line);
    }

    method RunFrame(script: Script)
      requires Valid()
      modifies this`at, this`frame, this`front, bus, bus.wram, bus.sram, bus.ch, bus.state
      ensures Now() == RunOneFrame(bus.e, old(Now()), script)
    {
      hide RunLine;
      if bus.fault.Some? { return; }
      if bus.mclkFrame >= MCLK_PER_FRAME { bus.mclkFrame := bus.mclkFrame - MCLK_PER_FRAME; }
      assert bus.Now() == CarryOver(old(bus.Now()));
      ghost var goal := RunLines(bus.e, bus.Now(), script, at, 0);
      for line := 0 to LINES_PER_FRAME
        invariant RunLines(bus.e, bus.Now(), script, at, line) == goal
        invariant bus.fault.None? && frame == old(frame) && front == old(front)
      {
        RunScanline(script, line);
        if bus.fault.Some? { return; }
      }
      front, frame := bus.log, frame + 1;
    }
  }

  lemma RunStops(e: Env, b: Bus, script: Script, at: nat, target: nat)
    requires b.Faulted()
    ensures RunCpu(e, b, script, at, target) == (b, at)
  {
  }
}
