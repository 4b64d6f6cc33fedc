/** How late a line can end: by less than its longest instruction, when no instruction kicks DMA. */
module Overrun {
  import opened Timing
  import opened Clock
  import opened Memory
  import opened Dma
  import opened BusOps
  import opened BusTime
  import opened Frame

  /** A $420B write, which runs a whole general DMA before it returns. */
  predicate Kicks(op: BusOp) { op.OpWrite? && SystemBank(op.bank) && op.off == 0x420B }

  /** At most `n` bus operations, none of them a kick. */
  predicate Brief(a: CpuAction, n: nat) {
    a.Instruction? ==> 1 + |a.rest| <= n && !Kicks(a.first) && forall op :: op in a.rest ==> !Kicks(op)
  }

  ghost predicate BriefBetween(script: Script, from: nat, to: nat, n: nat) {
    forall at: nat :: from <= at < to ==> Brief(script(at), n)
  }

  /** Any operation but a kick costs one access. */
  lemma StepFrame(e: Env, b: Bus, op: BusOp)
    requires !Kicks(op)
    ensures Step(e, b, op).clk.frame <= b.clk.frame + 12
  {
    hide AddMclk, ReadSystem, ReadCart, WriteSystem, AWrite, MemSpeed;
    match op {
      case OpIdle => TickTotal(b.clk, MCLK_PER_INTERNAL_CYCLE);
      case OpRead(bank, off) =>
        var b1 := WithClock(b, AddMclk(b.clk, MemSpeed(bank, off, b.fastRom)));
        TickTotal(b.clk, MemSpeed(bank, off, b.fastRom));
        ReadKeepsClock(e, b1, bank, off);
        CartKeepsClock(e, b1, bank, off);
      case OpWrite(bank, off, v) =>
        var b1 := WithClock(b, AddMclk(b.clk, MemSpeed(bank, off, b.fastRom)));
        TickTotal(b.clk, MemSpeed(bank, off, b.fastRom));
        if WritesTimer(op) {
          TimerWriteTime(e, b, op);
        } else if SystemBank(bank) {
          WriteKeepsClock(e, b1, bank, off, v);
        }
    }
  }

  lemma {:induction false} StepsFrame(e: Env, b: Bus, ops: seq<BusOp>)
    requires forall op :: op in ops ==> !Kicks(op)
    ensures Steps(e, b, ops).clk.frame <= b.clk.frame + 12 * |ops|
    decreases ops
  {
    hide Step, Kicks;
    if ops != [] {
      StepFrame(e, b, ops[0]);
      StepsFrame(e, Step(e, b, ops[0]), ops[1..]);
    }
  }

  lemma ExecuteFrame(e: Env, b: Bus, a: CpuAction, n: nat)
    requires a.Instruction? && Brief(a, n)
    ensures Execute(e, b, a).clk.frame <= b.clk.frame + 12 * n
  {
    hide Steps, Kicks;
    StepsFrame(e, if a.takesNmi then b.(nmiPending := false) else b, [a.first] + a.rest);
  }

  /** The CPU overruns its target by less than its longest instruction. */
  lemma {:induction false} CpuFrame(e: Env, b: Bus, script: Script, at: nat, target: nat, n: nat)
    requires b.clk.frame < target + 12 * n && BriefBetween(script, at, RunCpu(e, b, script, at, target).1, n)
    ensures RunCpu(e, b, script, at, target).0.clk.frame < target + 12 * n
    decreases if b.clk.frame < target then target - b.clk.frame else 0
  {
    hide Execute, Brief;
    if b.clk.frame < target && !b.Faulted() && script(at).Instruction? {
      var b1 := Execute(e, b, script(at));
      ExecuteAdvances(e, b, script(at));
      CpuMovesOn(e, b1, script, at + 1, target);
      ExecuteFrame(e, b, script(at), n);
      CpuFrame(e, b1, script, at + 1, target, n);
    }
  }

  lemma LineFrame(e: Env, b: Bus, script: Script, at: nat, line: nat, n: nat)
    requires b.clk.frame < (line + 1) * MCLK_PER_LINE + 12 * n
    requires BriefBetween(script, at, RunLine(e, b, script, at, line).1, n)
    ensures RunLine(e, b, script, at, line).0.clk.frame < (line + 1) * MCLK_PER_LINE + 12 * n
  {
    hide OpenLine, LineHdma, CloseFrameLine, RunCpu, LineClock;
    var b1 := LineHdma(e, OpenLine(e, b, line), line);
    OpenLineTime(e, b, line);
    if !b1.Faulted() {
      CpuFrame(e, b1, script, at, (line + 1) * MCLK_PER_LINE, n);
      CloseLineTime(e, RunCpu(e, b1, script, at, (line + 1) * MCLK_PER_LINE).0, line);
    }
  }
}
