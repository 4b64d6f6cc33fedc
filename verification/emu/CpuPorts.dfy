/** What single CPU accesses cost, show and change, and what runs of them add up to. */
module CpuPorts {
  import opened Timing
  import opened Clock
  import opened Memory
  import opened Dma
  import opened Hdma
  import opened IoUnit
  import opened BusOps
  import opened BusTime

  predicate Reads(op: BusOp, off: word) { op.OpRead? && SystemBank(op.bank) && op.off == off }
  predicate Writes(op: BusOp, off: word) { op.OpWrite? && SystemBank(op.bank) && op.off == off }

  // ---- Time ----

  /** Every access but a DMA kick takes the time of its address, an internal cycle six clocks. */
  lemma AccessTime(e: Env, b: Bus, op: BusOp)
    requires !Writes(op, 0x420B)
    ensures Elapsed(b.clk, Step(e, b, op).clk, if op.OpIdle? then 6 else MemSpeed(op.bank, op.off, b.fastRom))
  {
    hide AddMclk, MemSpeed, ReadSystem, WriteSystem, ReadCart, AWrite;
    match op {
      case OpIdle => TickTotal(b.clk, 6);
      case OpRead(bank, off) =>
        var n := MemSpeed(bank, off, b.fastRom);
        TickTotal(b.clk, n);
        ReadKeepsClock(e, WithClock(b, AddMclk(b.clk, n)), bank, off);
        CartKeepsClock(e, WithClock(b, AddMclk(b.clk, n)), bank, off);
      case OpWrite(bank, off, v) =>
        var n := MemSpeed(bank, off, b.fastRom);
        TickTotal(b.clk, n);
        if SystemBank(bank) && IrqRegister(off) {
          TimerWriteTime(e, b, op);
        } else if SystemBank(bank) {
          WriteKeepsClock(e, WithClock(b, AddMclk(b.clk, n)), bank, off, v);
        }
    }
  }

  // ---- The timer's position ----

  lemma StepsTwo(e: Env, b: Bus, x: BusOp, y: BusOp)
    ensures Steps(e, b, [x, y]) == Step(e, Step(e, b, x), y)
  {
    hide Step;
    assert [x, y][1..] == [y] && [y][1..] == [];
    assert Steps(e, Step(e, b, x), [y]) == Steps(e, Step(e, Step(e, b, x), y), []);
  }

  /** Writing the two halves of a position, in either order, leaves the nine-bit number they spell. */
  lemma PositionWritten(e: Env, b: Bus, bank: byte, low: byte, high: byte)
    requires SystemBank(bank)
    ensures Steps(e, b, [OpWrite(bank, 0x4207, low), OpWrite(bank, 0x4208, high)]).clk.htime == low + 0x100 * (high % 2)
    ensures Steps(e, b, [OpWrite(bank, 0x4208, high), OpWrite(bank, 0x4207, low)]).clk.htime == low + 0x100 * (high % 2)
    ensures Steps(e, b, [OpWrite(bank, 0x4209, low), OpWrite(bank, 0x420A, high)]).clk.vtime == low + 0x100 * (high % 2)
    ensures Steps(e, b, [OpWrite(bank, 0x420A, high), OpWrite(bank, 0x4209, low)]).clk.vtime == low + 0x100 * (high % 2)
  {
    hide Step;
    TwoHalves(e, b, bank, 0x4207, low, high);
    TwoHalves(e, b, bank, 0x4209, low, high);
  }

  lemma TwoHalves(e: Env, b: Bus, bank: byte, off: word, low: byte, high: byte)
    requires SystemBank(bank) && (off == 0x4207 || off == 0x4209)
    ensures var (x, y) := (OpWrite(bank, off, low), OpWrite(bank, off + 1, high));
            var (c, d) := (Steps(e, b, [x, y]).clk, Steps(e, b, [y, x]).clk);
            var z := low + 0x100 * (high % 2);
            if off == 0x4207 then c.htime == z && d.htime == z else c.vtime == z && d.vtime == z
  {
    hide Step, Steps, FreshTarget;
    var (x, y) := (OpWrite(bank, off, low), OpWrite(bank, off + 1, high));
    StepsTwo(e, b, x, y);
    StepsTwo(e, b, y, x);
    HalfWritten(e, b, bank, off, low);
    HalfWritten(e, Step(e, b, x), bank, off + 1, high);
    HalfWritten(e, b, bank, off + 1, high);
    HalfWritten(e, Step(e, b, y), bank, off, low);
    HalvesMeet(b.clk.htime, low, high);
    HalvesMeet(b.clk.vtime, low, high);
  }

  lemma HalvesMeet(x: nat, low: byte, high: byte)
    ensures (x / 0x100 % 2 * 0x100 + low) % 0x100 == low
    ensures (high % 2 * 0x100 + x % 0x100) / 0x100 % 2 == high % 2
  {
  }

  lemma FreshLocal(c: Clock, t: Option<nat>)
    ensures FreshTarget(c.(target := t)) == FreshTarget(c)
  {
    hide Bit;
  }

  /** A timer register write changes its half of its position and nothing else of the timer's settings. */
  lemma HalfWritten(e: Env, b: Bus, bank: byte, off: word, v: byte)
    requires SystemBank(bank) && IrqRegister(off)
    ensures var (c, d) := (b.clk, Step(e, b, OpWrite(bank, off, v)).clk);
            && d.nmitimen == (if off == 0x4200 then v else c.nmitimen)
            && d.htime == (if off == 0x4207 then c.htime / 0x100 % 2 * 0x100 + v
                           else if off == 0x4208 then v % 2 * 0x100 + c.htime % 0x100 else c.htime)
            && d.vtime == (if off == 0x4209 then c.vtime / 0x100 % 2 * 0x100 + v
                           else if off == 0x420A then v % 2 * 0x100 + c.vtime % 0x100 else c.vtime)
            && d.target == FreshTarget(d)
  {
    hide FreshTarget, MemSpeed, Bit, AddMclk;
    var c := AddMclk(b.clk, MemSpeed(bank, off, b.fastRom));
    TickTotal(b.clk, MemSpeed(bank, off, b.fastRom));
    var d := SetTimerRegister(c, off, v);
    FreshLocal(d, FreshTarget(d));
  }

  // ---- $4210 and $4211 ----

  /** Nothing but a $4210 read touches the vertical-blank flag between line starts. */
  lemma StepKeepsNmi(e: Env, b: Bus, op: BusOp)
    ensures Step(e, b, op).nmiFlag == (b.nmiFlag && !Reads(op, 0x4210))
    ensures Step(e, b, op).vblankStart == b.vblankStart
    ensures !Writes(op, 0x4200) ==>
            Step(e, b, op).nmiPending == b.nmiPending && Step(e, b, op).clk.nmitimen == b.clk.nmitimen
    ensures Writes(op, 0x4200) ==>
              Step(e, b, op).nmiPending == (b.nmiPending || (op.value >= 0x80 && b.clk.nmitimen < 0x80 && b.nmiFlag))
  {
    hide AddMclk, MemSpeed, ReadSystem, WriteSystem, CartRead, AWrite, NoFlag, Bit;
    match op {
      case OpIdle => TickTotal(b.clk, 6);
      case OpRead(bank, off) =>
        TickTotal(b.clk, MemSpeed(bank, off, b.fastRom));
        ReadKeepsNmi(e, WithClock(b, AddMclk(b.clk, MemSpeed(bank, off, b.fastRom))), bank, off);
      case OpWrite(bank, off, v) =>
        TickTotal(b.clk, MemSpeed(bank, off, b.fastRom));
        WriteKeepsNmi(e, WithClock(b, AddMclk(b.clk, MemSpeed(bank, off, b.fastRom))), bank, off, v);
    }
  }

  /** The vertical-blank flag, the line it rises on and the pending edge. */
  predicate SameNmi(b: Bus, r: Bus) {
    r.nmiFlag == b.nmiFlag && r.vblankStart == b.vblankStart && r.nmiPending == b.nmiPending
  }

  lemma ApuKeepsNmi(e: Env, b: Bus, port: byte, v: byte)
    ensures SameNmi(b, ApuPortRead(e, b, port).1) && SameNmi(b, ApuPortWrite(e, b, port, v))
  {
    hide ApuReadPort;
    CatchUpKeepsNmi(e);
    ServiceKeepsNmi(e);
  }

  lemma CatchUpKeepsNmi(e: Env)
    ensures forall b :: SameNmi(b, ApuCatchUp(e, b))
  {
  }

  lemma ServiceKeepsNmi(e: Env)
    ensures forall b :: SameNmi(b, ServicePendingCC(e, b))
  {
  }

  lemma RegistersKeepNmi(e: Env, b: Bus, bank: byte, off: word, reg: byte)
    ensures SameNmi(b, ReadPort(b).1) && SameNmi(b, ReadCart(e, b, bank, off).1)
    ensures IoReadAddress(off) ==> SameNmi(b, ReadIoRegister(b, off).1)
    ensures SameNmi(b, ReadPpuSpace(e, b, reg).1)
    ensures 0x4300 <= off <= 0x437F ==> SameNmi(b, ReadDmaRegister(b, off).1)
  {
    hide CartRead, ReadReg;
  }

  lemma FlagReadsKeepNmi(b: Bus)
    ensures SameNmi(b, ReadTimeup(b).1) && SameNmi(b.(nmiFlag := false), ReadNmiFlag(b).1)
    ensures forall v :: SameNmi(b, Latched(b, v).1)
  {
  }

  lemma SameNmiSelf(b: Bus)
    ensures SameNmi(b, b)
  {
  }

  lemma ReadKeepsNmi(e: Env, b: Bus, bank: byte, off: word)
    ensures SameNmi(b.(nmiFlag := b.nmiFlag && off != 0x4210), ReadSystem(e, b, bank, off).1)
    ensures ReadSystem(e, b, bank, off).1.clk.nmitimen == b.clk.nmitimen
  {
    hide ApuPortRead, ReadPpuSpace, ReadPort, ReadIoRegister, ReadCart, ReadNmiFlag, ReadTimeup, ReadDmaRegister,
      NoFlag;
    hide SameNmi;
    ReadKeepsClock(e, b, bank, off);
    SameFlags(ReadSystem(e, b, bank, off).1.clk, b.clk);
    SameNmiSelf(b);
    assert b.(nmiFlag := b.nmiFlag && off != 0x4210) == if off == 0x4210 then b.(nmiFlag := false) else b;
    if 0x2140 <= off <= 0x217F {
      ApuKeepsNmi(e, b, off % 4, 0);
    } else {
      FlagReadsKeepNmi(b);
      RegistersKeepNmi(e, b, bank, off, if 0x2100 <= off <= 0x213F then off - 0x2100 else 0);
    }
  }

  lemma SameFlags(c: Clock, d: Clock)
    requires NoFlag(c) == NoFlag(d)
    ensures c.nmitimen == d.nmitimen
  {
  }

  lemma ControlKeepsNmi(e: Env, b: Bus, bank: byte, off: word, v: byte)
    requires off != 0x4200
    ensures SameNmi(b, WriteControl(e, b, bank, off, v))
            && WriteControl(e, b, bank, off, v).clk.nmitimen == b.clk.nmitimen
  {
    hide WriteReg, KickDma, FreshTarget, NineLow, NineHigh, Channels, WriteHdmaen, Bit;
    if off == 0x420B {
      KickKeepsNmi(e, b, Channels(v));
    }
  }

  lemma WriteKeepsNmi(e: Env, b: Bus, bank: byte, off: word, v: byte)
    ensures off != 0x4200 ==> SameNmi(b, WriteSystem(e, b, bank, off, v))
                              && WriteSystem(e, b, bank, off, v).clk.nmitimen == b.clk.nmitimen
    ensures off == 0x4200 ==>
              SameNmi(b.(nmiPending := b.nmiPending || (v >= 0x80 && b.clk.nmitimen < 0x80 && b.nmiFlag)),
                WriteSystem(e, b, bank, off, v))
  {
    if off == 0x4200 {
      hide FreshTarget;
    } else if 0x2140 <= off <= 0x217F {
      hide ApuPortWrite;
      ApuKeepsNmi(e, b, off % 4, v);
      ApuKeepsClock(e, b, off % 4, v);
    } else {
      hide WriteControl, PpuWriteReg, BWrite;
      ControlKeepsNmi(e, b, bank, off, v);
    }
  }

  lemma KickKeepsNmi(e: Env, b: Bus, mask: set<nat>)
    ensures SameNmi(b, KickDma(e, b, mask)) && KickDma(e, b, mask).clk.nmitimen == b.clk.nmitimen
  {
    hide ExecuteDma, AddMclk, Ticks;
    var incs := KickTicks(e, b, mask);
    TicksTime(b.clk, incs);
  }

  /** What a $4210 read shows: the flag, the chip version 2 and three bits of open bus. */
  lemma NmiFlagShown(e: Env, b: Bus, bank: byte)
    requires SystemBank(bank)
    ensures var v := Read(e, b, bank, 0x4210).0;
            && (v >= 0x80 <==> b.nmiFlag) && v % 0x10 == 2 && v / 0x10 % 8 == b.Mem().mdr / 0x10 % 8
  {
    hide AddMclk, MemSpeed;
  }

  /** A timer target passed sets the timer flag; reading $4211 shows it once and clears it. */
  predicate FlagSince(c: Clock, d: Clock) {
    c.fired <= d.fired && (d.irqFlag <==> c.irqFlag || |d.fired| > |c.fired|)
  }

  lemma {:induction false} TicksFlag(c: Clock, incs: seq<nat>)
    ensures FlagSince(c, Ticks(c, incs))
    decreases incs
  {
    hide Bit, NextHIrqTarget;
    if incs != [] {
      TicksFlag(AddMclk(c, incs[0]), incs[1..]);
    }
  }

  lemma StepFlag(e: Env, b: Bus, op: BusOp)
    requires !ReadsTimeup(op)
    ensures FlagSince(b.clk, Step(e, b, op).clk)
  {
    hide Step, Ticks, AddMclk;
    if WritesTimer(op) {
      TimerWriteFlag(e, b, op);
    } else {
      var incs := StepTicks(e, b, op);
      TicksFlag(b.clk, incs);
    }
  }

  lemma TimerWriteFlag(e: Env, b: Bus, op: BusOp)
    requires WritesTimer(op)
    ensures FlagSince(b.clk, Step(e, b, op).clk)
  {
    hide MemSpeed, FreshTarget, NineLow, NineHigh, Bit, NextHIrqTarget;
  }

  /**
   The timer flag, exactly: after any accesses without a $4211 read it is up just when it was up before
   or a timer target has been passed since, and the next $4211 read shows that and leaves it down.
   */
  lemma {:induction false} TimerFlagExact(e: Env, b: Bus, ops: seq<BusOp>, bank: byte)
    requires SystemBank(bank) && forall op :: op in ops ==> !ReadsTimeup(op)
    ensures FlagSince(b.clk, Steps(e, b, ops).clk)
    ensures var r := Read(e, Steps(e, b, ops), bank, 0x4211);
            && (r.0 >= 0x80 <==> b.clk.irqFlag || |r.1.clk.fired| > |b.clk.fired|)
            && Steps(e, b, ops).clk.fired <= r.1.clk.fired
            && r.0 % 0x80 == Steps(e, b, ops).Mem().mdr % 0x80 && !r.1.clk.irqFlag
    decreases ops
  {
    hide Step, Read;
    if ops == [] {
      TimerFlagShown(e, b, bank);
    } else {
      StepFlag(e, b, ops[0]);
      TimerFlagExact(e, Step(e, b, ops[0]), ops[1..], bank);
    }
  }

  lemma TimerFlagShown(e: Env, b: Bus, bank: byte)
    requires SystemBank(bank)
    ensures var r := Read(e, b, bank, 0x4211);
            && (r.0 >= 0x80 <==> b.clk.irqFlag || |r.1.clk.fired| > |b.clk.fired|)
            && b.clk.fired <= r.1.clk.fired
            && r.0 % 0x80 == b.Mem().mdr % 0x80 && !r.1.clk.irqFlag
  {
    hide MemSpeed, Bit, NextHIrqTarget;
  }

  // ---- $420B, $420C and $420D ----

  lemma HalfBit(v: byte, k: nat)
    requires 1 <= k < 8
    ensures Bit(v, k) <==> Bit(v / 2, k - 1)
  {
    assert v / 2 / 2 == v / 4 && v / 2 / 4 == v / 8 && v / 2 / 8 == v / 16;
    assert v / 2 / 16 == v / 32 && v / 2 / 32 == v / 64;
  }

  lemma {:induction false} BitIsBitSet(v: byte, k: nat)
    requires k < 8
    ensures Bit(v, k) <==> BitSet(v, k)
    decreases k
  {
    hide Bit;
    if k > 0 {
      HalfBit(v, k);
      BitIsBitSet(v / 2, k - 1);
    } else {
      LowestBit(v);
    }
  }

  lemma LowestBit(v: byte)
    ensures Bit(v, 0) <==> v % 2 == 1
  {
  }

  /** The set bits of a mask. */
  function Named(v: byte): set<nat> { set j: nat | j < 8 && BitSet(v, j) }

  lemma MaskNames(v: byte)
    ensures Channels(v) == Named(v)
  {
    hide Bit, BitSet;
    forall j: nat ensures j in Channels(v) <==> j in Named(v) {
      if j < 8 { BitIsBitSet(v, j); }
    }
  }

  /** The first fault is the one kept. */
  function RaiseOnce(b: Bus, f: Fault): Bus {
    if b.hub.mem.fault.Some? then b else b.(hub := b.hub.(mem := b.hub.mem.(fault := Some(f))))
  }

  /**
   A kick is refused, with a fault that names the channels and no byte moved, exactly when one of them is
   also enabled for HDMA; otherwise the named channels run.
   */
  lemma KickGuarded(e: Env, b: Bus, bank: byte, v: byte)
    requires SystemBank(bank)
    ensures var named := Named(v);
            var ticked := b.(clk := AddMclk(b.clk, 6));
            var r := Write(e, b, bank, 0x420B, v);
            if named * b.hub.hdmaen != {}
            then r == RaiseOnce(ticked, HdmaDmaConflict(named * b.hub.hdmaen))
            else if named == {} then r == ticked
            else r == KickDma(e, ticked, named)
  {
    hide Channels, KickDma, AddMclk, Named;
    MaskNames(v);
    NoneNamed(v);
  }

  lemma NoneNamed(v: byte)
    ensures Channels(v) == {} <==> v == 0
  {
    if v != 0 {
      var k: nat := if Bit(v, 0) then 0 else if Bit(v, 1) then 1 else if Bit(v, 2) then 2 else if Bit(v, 3) then 3
                    else if Bit(v, 4) then 4 else if Bit(v, 5) then 5 else if Bit(v, 6) then 6 else 7;
      assert k in Channels(v);
    }
  }

  /** $420C takes the bits of the value as the new HDMA mask; $420D takes bit 0 as the ROM speed. */
  lemma MasksWritten(e: Env, b: Bus, bank: byte, v: byte)
    requires SystemBank(bank)
    ensures Write(e, b, bank, 0x420C, v).hub.hdmaen == Named(v)
    ensures Write(e, b, bank, 0x420D, v).fastRom == (v % 2 == 1)
    ensures Write(e, b, bank, 0x420D, v).hub == b.hub
  {
    hide Channels, AddMclk, Named;
    MaskNames(v);
  }
}
