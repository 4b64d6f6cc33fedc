/** What every bus operation does to the clock: it is a list of increments, never empty. */
module BusTime {
  import opened Timing
  import opened Clock
  import opened Memory
  import opened Dma
  import opened IoUnit
  import opened BusOps

  /** The clock apart from the interrupt flag, which a $4211 read clears. */
  function NoFlag(c: Clock): Clock { c.(irqFlag := false) }

  predicate WritesTimer(op: BusOp) {
    op.OpWrite? && SystemBank(op.bank) && IrqRegister(op.off)
  }

  predicate ReadsTimeup(op: BusOp) {
    op.OpRead? && SystemBank(op.bank) && op.off == 0x4211
  }

  lemma NoFlagTick(c: Clock, d: Clock, n: nat)
    requires NoFlag(c) == NoFlag(d)
    ensures NoFlag(AddMclk(c, n)) == NoFlag(AddMclk(d, n))
  {
    assert c == d.(irqFlag := c.irqFlag);
  }

  lemma {:induction false} NoFlagTicks(c: Clock, d: Clock, incs: seq<nat>)
    requires NoFlag(c) == NoFlag(d)
    ensures NoFlag(Ticks(c, incs)) == NoFlag(Ticks(d, incs))
    decreases incs
  {
    if incs != [] {
      NoFlagTick(c, d, incs[0]);
      NoFlagTicks(AddMclk(c, incs[0]), AddMclk(d, incs[0]), incs[1..]);
    }
  }

  lemma ModAdd(x: nat, n: nat)
    ensures (x % TOTAL_RANGE + n) % TOTAL_RANGE == (x + n) % TOTAL_RANGE
  {
  }

  lemma TickTotal(c: Clock, n: nat)
    ensures var d := AddMclk(c, n);
            && d.total == (c.total + n) % TOTAL_RANGE && d.frame == c.frame + n
            && d.line == c.line && d.nmitimen == c.nmitimen && d.htime == c.htime && d.vtime == c.vtime
  {
  }

  lemma {:induction false} TicksTime(c: Clock, incs: seq<nat>)
    ensures var d := Ticks(c, incs);
            d.frame == c.frame + Sum(incs) && d.total == (c.total + Sum(incs)) % TOTAL_RANGE
    ensures var d := Ticks(c, incs);
            d.line == c.line && d.nmitimen == c.nmitimen && d.htime == c.htime && d.vtime == c.vtime
    decreases incs
  {
    hide AddMclk;
    if incs != [] {
      TickTotal(c, incs[0]);
      TicksTime(AddMclk(c, incs[0]), incs[1..]);
      ModAdd(c.total + incs[0], Sum(incs[1..]));
    }
  }

  lemma TicksOne(c: Clock, n: nat)
    ensures Ticks(c, [n]) == AddMclk(c, n) && Sum([n]) == n
  {
    assert [n][1..] == [];
  }

  /** No increment is longer than one bus access. */
  predicate Short(incs: seq<nat>) { forall n :: n in incs ==> n <= 12 }

  // ---- A DMA kick as a list of increments ----

  lemma {:induction false} ChannelsTick(e: Env, k: Kick, mask: set<nat>, i: nat) returns (incs: seq<nat>)
    requires i <= 8
    ensures DmaChannels(e, k, mask, i).clk == Ticks(k.clk, incs) && Short(incs)
    decreases 8 - i
  {
    hide AddMclk, MoveByte, Perform;
    if i == 8 {
      incs := [];
    } else if i !in mask {
      incs := ChannelsTick(e, k, mask, i + 1);
    } else {
      var t := Transfer(AddMclk(k.clk, 8), k.mem, k.ch[i]);
      MovedNone(k.ch[i]);
      DmaLoopExact(e, t, k.ch[i], 0);
      var done := PerformAll(e, k.mem, Plan(k.ch[i])[0..]).1;
      var r := DmaLoop(e, t, k.ch[i].Count(), 0);
      var rest := ChannelsTick(e, Kick(r.clk, r.mem, k.ch[i := r.c]), mask, i + 1);
      TicksOne(k.clk, 8);
      TicksAppend(k.clk, [8], Eights(done));
      TicksAppend(k.clk, [8] + Eights(done), rest);
      incs := [8] + Eights(done) + rest;
    }
  }

  lemma KickTicks(e: Env, b: Bus, mask: set<nat>) returns (incs: seq<nat>)
    ensures KickDma(e, b, mask).clk == Ticks(b.clk, incs) && Short(incs)
  {
    hide AddMclk, DmaChannels;
    var rest := ChannelsTick(e, Kick(AddMclk(b.clk, 12), b.hub.mem, b.hub.ch), mask, 0);
    TicksOne(b.clk, 12);
    TicksAppend(b.clk, [12], rest);
    incs := [12] + rest;
  }

  // ---- Everything else leaves the clock alone ----

  lemma ApuKeepsClock(e: Env, b: Bus, port: byte, v: byte)
    ensures ApuPortRead(e, b, port).1.clk == b.clk
    ensures ApuPortWrite(e, b, port, v).clk == b.clk
  {
    CatchUpKeepsClock(e);
    ServiceKeepsClock(e);
  }

  lemma CatchUpKeepsClock(e: Env)
    ensures forall b :: ApuCatchUp(e, b).clk == b.clk
  {
  }

  lemma ServiceKeepsClock(e: Env)
    ensures forall b :: ServicePendingCC(e, b).clk == b.clk
  {
  }

  lemma PpuKeepsClock(e: Env, b: Bus, reg: byte)
    ensures ReadPpuSpace(e, b, reg).1.clk == b.clk
  {
  }

  lemma RegistersKeepClock(e: Env, b: Bus, bank: byte, off: word)
    ensures ReadPort(b).1.clk == b.clk
    ensures IoReadAddress(off) ==> ReadIoRegister(b, off).1.clk == b.clk
    ensures ReadCart(e, b, bank, off).1.clk == b.clk
    ensures ReadNmiFlag(b).1.clk == b.clk
    ensures NoFlag(ReadTimeup(b).1.clk) == NoFlag(b.clk)
    ensures 0x4300 <= off <= 0x437F ==> ReadDmaRegister(b, off).1.clk == b.clk
  {
    hide CartRead, ReadReg;
  }

  lemma ReadKeepsClock(e: Env, b: Bus, bank: byte, off: word)
    ensures NoFlag(ReadSystem(e, b, bank, off).1.clk) == NoFlag(b.clk)
    ensures off != 0x4211 ==> ReadSystem(e, b, bank, off).1.clk == b.clk
  {
    hide ApuPortRead, ReadPpuSpace, ReadPort, ReadIoRegister, ReadCart, ReadNmiFlag, ReadTimeup, ReadDmaRegister,
      NoFlag;
    ApuKeepsClock(e, b, off % 4, 0);
    if 0x2100 <= off <= 0x213F { PpuKeepsClock(e, b, off - 0x2100); }
    RegistersKeepClock(e, b, bank, off);
  }

  lemma ControlKeepsClock(e: Env, b: Bus, bank: byte, off: word, v: byte)
    requires !IrqRegister(off) && off != 0x420B
    ensures WriteControl(e, b, bank, off, v).clk == b.clk
  {
    hide WriteReg, Channels;
  }

  lemma WriteKeepsClock(e: Env, b: Bus, bank: byte, off: word, v: byte)
    requires !IrqRegister(off) && off != 0x420B
    ensures WriteSystem(e, b, bank, off, v).clk == b.clk
  {
    hide ApuPortWrite, PpuWriteReg, BWrite, WriteControl, IrqRegister;
    if 0x2140 <= off <= 0x217F {
      ApuKeepsClock(e, b, off % 4, v);
    } else {
      ControlKeepsClock(e, b, bank, off, v);
    }
  }

  /** An operation that leaves the timer registers alone only ticks the clock. */
  lemma StepTicks(e: Env, b: Bus, op: BusOp) returns (incs: seq<nat>)
    requires !WritesTimer(op)
    ensures NoFlag(Step(e, b, op).clk) == NoFlag(Ticks(b.clk, incs))
    ensures !ReadsTimeup(op) ==> Step(e, b, op).clk == Ticks(b.clk, incs)
    ensures Sum(incs) >= 6 && Short(incs)
  {
    hide AddMclk, ReadSystem, ReadCart, WriteSystem, AWrite, MemSpeed;
    match op {
      case OpIdle =>
        TicksOne(b.clk, MCLK_PER_INTERNAL_CYCLE);
        incs := [MCLK_PER_INTERNAL_CYCLE];
      case OpRead(bank, off) =>
        var n := MemSpeed(bank, off, b.fastRom);
        var b1 := WithClock(b, AddMclk(b.clk, n));
        ReadKeepsClock(e, b1, bank, off);
        CartKeepsClock(e, b1, bank, off);
        TicksOne(b.clk, n);
        incs := [n];
      case OpWrite(bank, off, v) =>
        var n := MemSpeed(bank, off, b.fastRom);
        var b1 := WithClock(b, AddMclk(b.clk, n));
        TicksOne(b.clk, n);
        if SystemBank(bank) && off == 0x420B {
          var kick := WriteTicks(e, b1, bank, v);
          TicksAppend(b.clk, [n], kick);
          incs := [n] + kick;
        } else {
          if SystemBank(bank) { WriteKeepsClock(e, b1, bank, off, v); }
          incs := [n];
        }
    }
  }

  lemma CartKeepsClock(e: Env, b: Bus, bank: byte, off: word)
    ensures ReadCart(e, b, bank, off).1.clk == b.clk
  {
  }

  lemma WriteTicks(e: Env, b: Bus, bank: byte, v: byte) returns (incs: seq<nat>)
    ensures WriteSystem(e, b, bank, 0x420B, v).clk == Ticks(b.clk, incs) && Short(incs)
  {
    hide KickDma, Channels, AddMclk;
    if v == 0 || Channels(v) * b.hub.hdmaen != {} {
      incs := [];
    } else {
      incs := KickTicks(e, b, Channels(v));
    }
  }

  /** Frame and total clock move together. */
  lemma StepTime(e: Env, b: Bus, op: BusOp) returns (n: nat)
    ensures n >= 6
    ensures Elapsed(b.clk, Step(e, b, op).clk, n)
  {
    hide Step, Ticks, AddMclk, RecomputeIrqTarget;
    if WritesTimer(op) {
      n := MemSpeed(op.bank, op.off, b.fastRom);
      TimerWriteTime(e, b, op);
    } else {
      var incs := StepTicks(e, b, op);
      TicksTime(b.clk, incs);
      n := Sum(incs);
    }
  }

  predicate Elapsed(c: Clock, d: Clock, n: nat) {
    d.frame == c.frame + n && d.total == (c.total + n) % TOTAL_RANGE
  }

  lemma TimerWriteTime(e: Env, b: Bus, op: BusOp)
    requires WritesTimer(op)
    ensures Elapsed(b.clk, Step(e, b, op).clk, MemSpeed(op.bank, op.off, b.fastRom))
  {
    hide MemSpeed, FreshTarget, NineLow, NineHigh, Bit;
  }

  lemma ElapsedJoin(c: Clock, d: Clock, f: Clock, m: nat, n: nat)
    requires Elapsed(c, d, m) && Elapsed(d, f, n)
    ensures Elapsed(c, f, m + n)
  {
    assert ((c.total + m) % TOTAL_RANGE + n) % TOTAL_RANGE == (c.total + (m + n)) % TOTAL_RANGE;
  }

  lemma {:induction false} StepsTime(e: Env, b: Bus, ops: seq<BusOp>) returns (n: nat)
    ensures n >= 6 * |ops|
    ensures Elapsed(b.clk, Steps(e, b, ops).clk, n)
    decreases ops
  {
    hide Step, Elapsed;
    if ops == [] {
      n := 0;
      ElapsedNone(b.clk);
    } else {
      var b1 := Step(e, b, ops[0]);
      var m := StepTime(e, b, ops[0]);
      var r := StepsTime(e, b1, ops[1..]);
      ElapsedJoin(b.clk, b1.clk, Steps(e, b1, ops[1..]).clk, m, r);
      n := m + r;
    }
  }

  lemma ElapsedNone(c: Clock)
    ensures Elapsed(c, c, 0)
  {
  }
}
