/** What a program gets from the multiplier, the divider, the status byte and the controller. */
module IoPorts {
  import opened Timing
  import opened Clock
  import opened Memory
  import opened Dma
  import opened Hdma
  import opened IoUnit
  import opened BusOps
  import opened BusTime
  import opened CpuPorts
  import opened Frame
  import opened Schedule

  // ---- Which accesses reach the registers ----

  predicate AccessesIo(op: BusOp) {
    || (op.OpRead? && SystemBank(op.bank) && IoReadAddress(op.off))
    || (op.OpWrite? && SystemBank(op.bank) && IoWriteAddress(op.off))
  }

  predicate SameIo(b: Bus, r: Bus) { r.io == b.io }

  lemma CatchUpKeepsIo(e: Env)
    ensures forall b :: SameIo(b, ApuCatchUp(e, b))
  {
  }

  lemma ServiceKeepsIo(e: Env)
    ensures forall b :: SameIo(b, ServicePendingCC(e, b))
  {
  }

  lemma ApuKeepsIo(e: Env, b: Bus, port: byte, v: byte)
    ensures SameIo(b, ApuPortRead(e, b, port).1) && SameIo(b, ApuPortWrite(e, b, port, v))
  {
    hide ApuReadPort;
    CatchUpKeepsIo(e);
    ServiceKeepsIo(e);
  }

  lemma PlainReadsKeepIo(e: Env, b: Bus, bank: byte, off: word, reg: byte)
    ensures SameIo(b, ReadPort(b).1) && SameIo(b, ReadCart(e, b, bank, off).1) && SameIo(b, ReadPpuSpace(e, b, reg).1)
    ensures SameIo(b, ReadNmiFlag(b).1) && SameIo(b, ReadTimeup(b).1) && forall v :: SameIo(b, Latched(b, v).1)
    ensures 0x4300 <= off <= 0x437F ==> SameIo(b, ReadDmaRegister(b, off).1)
  {
    hide CartRead, ReadReg;
  }

  lemma ReadKeepsIo(e: Env, b: Bus, bank: byte, off: word)
    requires !IoReadAddress(off)
    ensures SameIo(b, ReadSystem(e, b, bank, off).1)
  {
    hide ApuPortRead, ReadPpuSpace, ReadPort, ReadCart, ReadNmiFlag, ReadTimeup, ReadDmaRegister;
    ApuKeepsIo(e, b, off % 4, 0);
    PlainReadsKeepIo(e, b, bank, off, if 0x2100 <= off <= 0x213F then off - 0x2100 else 0);
  }

  lemma ControlKeepsIo(e: Env, b: Bus, bank: byte, off: word, v: byte)
    requires !IoWriteAddress(off)
    ensures SameIo(b, WriteControl(e, b, bank, off, v))
  {
    hide ExecuteDma, WriteReg, RecomputeIrqTarget, SetTimerRegister, Channels, NmiEdge, WriteHdmaen;
  }

  lemma WriteKeepsIo(e: Env, b: Bus, bank: byte, off: word, v: byte)
    requires !IoWriteAddress(off)
    ensures SameIo(b, WriteSystem(e, b, bank, off, v))
  {
    hide ApuPortWrite, PpuWriteReg, BWrite, WriteControl;
    ApuKeepsIo(e, b, off % 4, v);
    ControlKeepsIo(e, b, bank, off, v);
  }

  lemma StepKeepsIo(e: Env, b: Bus, op: BusOp)
    requires !AccessesIo(op)
    ensures Step(e, b, op).io == b.io
  {
    hide AddMclk, MemSpeed, ReadSystem, WriteSystem, ReadCart, AWrite, IoReadAddress, IoWriteAddress, Latched;
    hide ReadPort, ReadPpuSpace, ReadNmiFlag, ReadTimeup, ReadDmaRegister;
    match op {
      case OpIdle =>
      case OpRead(bank, off) =>
        var b1 := WithClock(b, AddMclk(b.clk, MemSpeed(bank, off, b.fastRom)));
        if SystemBank(bank) { ReadKeepsIo(e, b1, bank, off); }
        PlainReadsKeepIo(e, b1, bank, off, 0);
      case OpWrite(bank, off, v) =>
        if SystemBank(bank) {
          WriteKeepsIo(e, WithClock(b, AddMclk(b.clk, MemSpeed(bank, off, b.fastRom))), bank, off, v);
        }
    }
  }

  lemma IoRead(e: Env, b: Bus, bank: byte, off: word)
    requires SystemBank(bank) && IoReadAddress(off)
    ensures var b1 := b.(clk := AddMclk(b.clk, MemSpeed(bank, off, b.fastRom)));
            Read(e, b, bank, off) == ReadIoRegister(b1, off)
  {
    hide AddMclk, MemSpeed, ReadIoRegister;
  }

  lemma IoWritten(e: Env, b: Bus, bank: byte, off: word, v: byte)
    requires SystemBank(bank) && IoWriteAddress(off)
    ensures Write(e, b, bank, off, v).io == WriteIo(b.io, off, v)
  {
    hide AddMclk, MemSpeed, WriteIo;
  }

  // ---- Multiplier and divider ----

  predicate WritesArithmetic(op: BusOp) { op.OpWrite? && SystemBank(op.bank) && 0x4202 <= op.off <= 0x4206 }

  predicate SameArithmetic(x: IoRegs, y: IoRegs) {
    x.wrmpya == y.wrmpya && x.wrdiv == y.wrdiv && x.rddiv == y.rddiv && x.rdmpy == y.rdmpy
  }

  lemma StepKeepsArithmetic(e: Env, b: Bus, op: BusOp)
    requires !WritesArithmetic(op)
    ensures SameArithmetic(b.io, Step(e, b, op).io)
  {
    hide Read, Write, Idle;
    if !AccessesIo(op) {
      StepKeepsIo(e, b, op);
    } else if op.OpRead? {
      IoRead(e, b, op.bank, op.off);
      ReadKeepsArithmetic(b.(clk := AddMclk(b.clk, MemSpeed(op.bank, op.off, b.fastRom))), op.off);
    } else {
      IoWritten(e, b, op.bank, op.off, op.value);
    }
  }

  lemma ReadKeepsArithmetic(b: Bus, off: word)
    requires IoReadAddress(off)
    ensures SameArithmetic(b.io, ReadIoRegister(b, off).1.io)
  {
  }

  lemma {:induction false} StepsKeepArithmetic(e: Env, b: Bus, ops: seq<BusOp>)
    requires forall op :: op in ops ==> !WritesArithmetic(op)
    ensures SameArithmetic(b.io, Steps(e, b, ops).io)
    decreases ops
  {
    hide Step, WritesArithmetic;
    if ops != [] {
      StepKeepsArithmetic(e, b, ops[0]);
      StepsKeepArithmetic(e, Step(e, b, ops[0]), ops[1..]);
    }
  }

  /** The word a program puts together from two reads. */
  function WordRead(e: Env, b: Bus, bank: byte, off: word): nat
    requires off < 0xFFFF
  {
    Read(e, b, bank, off).0 + 0x100 * Read(e, b, bank, off + 1).0
  }

  lemma ResultsShown(e: Env, b: Bus, bank: byte)
    requires SystemBank(bank)
    ensures WordRead(e, b, bank, 0x4214) == b.io.rddiv && WordRead(e, b, bank, 0x4216) == b.io.rdmpy
  {
    hide AddMclk, MemSpeed, Read;
    IoRead(e, b, bank, 0x4214);
    IoRead(e, b, bank, 0x4215);
    IoRead(e, b, bank, 0x4216);
    IoRead(e, b, bank, 0x4217);
  }

  /** Two factors written, with any other accesses in between and after: the product is there to read. */
  lemma ProductShown(e: Env, b: Bus, bank: byte, x: byte, y: byte, between: seq<BusOp>, after: seq<BusOp>)
    requires SystemBank(bank) && forall op :: op in between + after ==> !WritesArithmetic(op)
    ensures var b1 := Steps(e, Write(e, b, bank, 0x4202, x), between);
            var b2 := Steps(e, Write(e, b1, bank, 0x4203, y), after);
            WordRead(e, b2, bank, 0x4216) == x * y
  {
    hide Read, Write, Steps, WritesArithmetic;
    assert forall op :: op in between ==> op in between + after;
    assert forall op :: op in after ==> op in between + after;
    IoWritten(e, b, bank, 0x4202, x);
    StepsKeepArithmetic(e, Write(e, b, bank, 0x4202, x), between);
    var b1 := Steps(e, Write(e, b, bank, 0x4202, x), between);
    IoWritten(e, b1, bank, 0x4203, y);
    StepsKeepArithmetic(e, Write(e, b1, bank, 0x4203, y), after);
    ResultsShown(e, Steps(e, Write(e, b1, bank, 0x4203, y), after), bank);
  }

  /** What the divider gives: quotient and remainder, and for a zero divisor the largest word and the dividend. */
  predicate Divided(n: nat, d: byte, q: nat, r: nat) {
    if d == 0 then q == 0xFFFF && r == n else q * d + r == n && r < d
  }

  /** A dividend and a divisor written, with any other accesses in between and after: the division is there to read. */
  lemma QuotientShown(e: Env, b: Bus, bank: byte, low: byte, high: byte, d: byte, between: seq<BusOp>,
      after: seq<BusOp>)
    requires SystemBank(bank) && forall op :: op in between + after ==> !WritesArithmetic(op)
    ensures var b1 := Steps(e, Write(e, Write(e, b, bank, 0x4204, low), bank, 0x4205, high), between);
            var b2 := Steps(e, Write(e, b1, bank, 0x4206, d), after);
            Divided(low + 0x100 * high, d, WordRead(e, b2, bank, 0x4214), WordRead(e, b2, bank, 0x4216))
  {
    hide Read, Write, Steps, WritesArithmetic, WriteIo, Divided;
    assert forall op :: op in between ==> op in between + after;
    assert forall op :: op in after ==> op in between + after;
    var (x, y) := (Write(e, b, bank, 0x4204, low), Write(e, Write(e, b, bank, 0x4204, low), bank, 0x4205, high));
    IoWritten(e, b, bank, 0x4204, low);
    IoWritten(e, x, bank, 0x4205, high);
    DividendWritten(b.io, low, high);
    StepsKeepArithmetic(e, y, between);
    var b1 := Steps(e, y, between);
    IoWritten(e, b1, bank, 0x4206, d);
    DividesSo(b1.io, d);
    StepsKeepArithmetic(e, Write(e, b1, bank, 0x4206, d), after);
    ResultsShown(e, Steps(e, Write(e, b1, bank, 0x4206, d), after), bank);
  }

  lemma DividendWritten(io: IoRegs, low: byte, high: byte)
    ensures WriteIo(WriteIo(io, 0x4204, low), 0x4205, high).wrdiv == low + 0x100 * high
    ensures WriteIo(WriteIo(io, 0x4205, high), 0x4204, low).wrdiv == low + 0x100 * high
  {
  }

  lemma DividesSo(io: IoRegs, d: byte)
    ensures var r := WriteIo(io, 0x4206, d); Divided(io.wrdiv, d, r.rddiv, r.rdmpy)
  {
  }

  // ---- The status byte and the fixed ports ----

  /** $4212: vertical blank, horizontal blank, the busy bit of automatic reading, open bus in between. */
  lemma StatusShown(e: Env, b: Bus, bank: byte)
    requires SystemBank(bank)
    ensures var v := Read(e, b, bank, 0x4212).0;
            var dots := Read(e, b, bank, 0x4212).1.clk.frame % 1364 / 4;
            && (v >= 0x80 <==> b.clk.line >= b.vblankStart) && (v / 0x40 % 2 == 1 <==> dots >= 274)
            && v / 2 % 0x20 == b.Mem().mdr / 2 % 0x20 && (v % 2 == 1 <==> b.io.autoJoyBusy)
  {
    hide AddMclk, MemSpeed, Read;
    IoRead(e, b, bank, 0x4212);
    TickTotal(b.clk, MemSpeed(bank, 0x4212, b.fastRom));
    StatusBits(b.(clk := AddMclk(b.clk, MemSpeed(bank, 0x4212, b.fastRom))));
  }

  lemma StatusBits(b: Bus)
    ensures var v := ReadIoRegister(b, 0x4212).0;
            && (v >= 0x80 <==> b.clk.line >= b.vblankStart) && (v / 0x40 % 2 == 1 <==> b.clk.frame % 1364 / 4 >= 274)
            && v / 2 % 0x20 == b.Mem().mdr / 2 % 0x20 && (v % 2 == 1 <==> b.io.autoJoyBusy)
            && ReadIoRegister(b, 0x4212).1.clk == b.clk
  {
    FourParts(b.clk.line >= b.vblankStart, InHblank(b.clk), b.Mem().mdr, b.io.autoJoyBusy);
  }

  lemma FourParts(a: bool, h: bool, mdr: byte, c: bool)
    ensures var v := (if a then 0x80 else 0) + (if h then 0x40 else 0) + mdr % 0x40 / 2 * 2 + (if c then 1 else 0);
            (v >= 0x80 <==> a) && (v / 0x40 % 2 == 1 <==> h) && v / 2 % 0x20 == mdr / 2 % 0x20 && (v % 2 == 1 <==> c)
  {
    var m := mdr % 0x40 / 2;
    assert m == mdr / 2 % 0x20;
    var (x, y) := ((if a then 2 else 0) + (if h then 1 else 0), if c then 1 else 0);
    SmallParts(x, m, y);
    assert (if a then 0x80 else 0) + (if h then 0x40 else 0) + m * 2 + (if c then 1 else 0) == 0x40 * x + 2 * m + y;
  }

  lemma SmallParts(x: nat, m: nat, y: nat)
    requires x < 4 && m < 0x20 && y < 2
    ensures var v := 0x40 * x + 2 * m + y; v / 0x40 == x && v / 2 % 0x20 == m && v % 2 == y
  {
    assert (0x40 * x + 2 * m + y) / 2 == 0x20 * x + m;
  }

  /** The output port reads back, the second port is empty, and so are the results of the other controllers. */
  lemma FixedPortsShown(e: Env, b: Bus, bank: byte, v: byte, off: word)
    requires SystemBank(bank) && 0x421A <= off <= 0x421F
    ensures Read(e, Write(e, b, bank, 0x4201, v), bank, 0x4213).0 == v
    ensures Read(e, b, bank, off).0 == 0
    ensures Read(e, b, bank, 0x4017).0 % 0x20 == 0x1C && Read(e, b, bank, 0x4017).0 / 0x20 == b.Mem().mdr / 0x20
  {
    hide AddMclk, MemSpeed, Read, Write;
    IoWritten(e, b, bank, 0x4201, v);
    IoRead(e, Write(e, b, bank, 0x4201, v), bank, 0x4213);
    IoRead(e, b, bank, off);
    IoRead(e, b, bank, 0x4017);
  }

  // ---- The controller ----

  lemma {:induction false} FromBitsBit(bits: seq<bool>, k: nat)
    requires k < |bits|
    ensures BitSet(FromBits(bits), k) <==> bits[|bits| - 1 - k]
    decreases |bits|
  {
    OneDown(FromBits(bits), k);
    if k > 0 { FromBitsBit(bits[..|bits| - 1], k - 1); }
  }

  lemma NativeBit(pad: word, k: nat)
    requires k < 16
    ensures BitSet(NativeWord(pad), k) <==> k >= 4 && BitSet(pad, NATIVE_ORDER[15 - k])
  {
    hide FromBits, BitSet;
    var bits := seq(16, i requires 0 <= i < 16 => i < 12 && BitSet(pad, NATIVE_ORDER[i]));
    FromBitsBit(bits, k);
  }

  /**
   The platform's A B X Y L R Up Down Left Right Start Select, from bit 0 up, are the console's bits 7, 15, 6,
   14, 5, 4, 11, 10, 9, 8, 12 and 13.
   */
  lemma NativeWordMeans(pad: word)
    ensures var w := NativeWord(pad);
            && (BitSet(w, 7) <==> BitSet(pad, 0)) && (BitSet(w, 15) <==> BitSet(pad, 1))
            && (BitSet(w, 6) <==> BitSet(pad, 2)) && (BitSet(w, 14) <==> BitSet(pad, 3))
            && (BitSet(w, 5) <==> BitSet(pad, 4)) && (BitSet(w, 4) <==> BitSet(pad, 5))
            && (BitSet(w, 11) <==> BitSet(pad, 6)) && (BitSet(w, 10) <==> BitSet(pad, 7))
            && (BitSet(w, 9) <==> BitSet(pad, 8)) && (BitSet(w, 8) <==> BitSet(pad, 9))
            && (BitSet(w, 12) <==> BitSet(pad, 10)) && (BitSet(w, 13) <==> BitSet(pad, 11))
            && !BitSet(w, 3) && !BitSet(w, 2) && !BitSet(w, 1) && !BitSet(w, 0)
  {
    hide BitSet, NativeWord;
    forall k: nat | k < 16
      ensures BitSet(NativeWord(pad), k) <==> k >= 4 && BitSet(pad, NATIVE_ORDER[15 - k])
    {
      NativeBit(pad, k);
    }
  }

  /** Bit `i` of a serial reading of the word, then ones. */
  predicate SerialBit(w: word, i: nat) { i >= 16 || BitSet(w, 15 - i) }

  function SerialReads(j: Joypad, n: nat): (seq<byte>, Joypad) {
    if n == 0 then ([], j)
    else
      var (bits, j1) := SerialReads(j, n - 1);
      (bits + [ReadSerial(j1).0], ReadSerial(j1).1)
  }

  /** Strobing and then reading gives the buttons in the console's order, one per read, and ones from the 17th on. */
  lemma {:induction false} StrobedReads(j: Joypad, up: byte, down: byte, n: nat)
    requires up % 2 == 1 && down % 2 == 0
    ensures var (bits, r) := SerialReads(WriteStrobe(WriteStrobe(j, up), down), n);
            && |bits| == n && !r.strobe && r.joy1 == NativeWord(j.pad) && r.shift == (if n < 16 then n else 16)
            && forall i | 0 <= i < n :: bits[i] == (if SerialBit(NativeWord(j.pad), i) then 1 else 0)
    decreases n
  {
    hide NativeWord, BitSet;
    if n > 0 { StrobedReads(j, up, down, n - 1); }
  }

  /** While the strobe is held every read shows the first button. */
  lemma HeldStrobe(j: Joypad)
    requires j.strobe
    ensures ReadSerial(j).1 == j && ReadSerial(j).0 == (if BitSet(j.joy1, 15) then 1 else 0)
  {
    PowersOfTwo();
    assert Pow2(15) == 0x8000 by { assert Pow2(16) == 2 * Pow2(15); }
    HighBits(j.joy1, 15, 0);
    OneDown(j.joy1 / 0x8000, 0);
  }

  /** $4016 shows one serial bit below six bits of open bus, and moves on to the next. */
  lemma SerialShown(e: Env, b: Bus, bank: byte)
    requires SystemBank(bank)
    ensures var (v, r) := Read(e, b, bank, 0x4016);
            && v % 4 == ReadSerial(b.io.joypad).0 % 2 && v / 4 == b.Mem().mdr / 4
            && r.io == b.io.(joypad := ReadSerial(b.io.joypad).1)
    ensures forall v :: Write(e, b, bank, 0x4016, v).io == b.io.(joypad := WriteStrobe(b.io.joypad, v))
  {
    hide AddMclk, MemSpeed, Read, Write, ReadSerial, WriteStrobe;
    IoRead(e, b, bank, 0x4016);
    forall v ensures Write(e, b, bank, 0x4016, v).io == b.io.(joypad := WriteStrobe(b.io.joypad, v)) {
      IoWritten(e, b, bank, 0x4016, v);
    }
  }

  // ---- Automatic reading, over lines and frames ----

  /** What the program can see of automatic reading, and what the next one would latch. */
  predicate SameView(x: IoRegs, y: IoRegs) {
    x.joypad.pad == y.joypad.pad && x.joypad.joy1 == y.joypad.joy1 && x.joyPrev == y.joyPrev
    && x.autoJoyBusy == y.autoJoyBusy
  }

  lemma StepKeepsView(e: Env, b: Bus, op: BusOp)
    requires !Writes(op, 0x4016)
    ensures SameView(b.io, Step(e, b, op).io)
  {
    hide Read, Write, Idle;
    if !AccessesIo(op) {
      StepKeepsIo(e, b, op);
    } else if op.OpRead? {
      IoRead(e, b, op.bank, op.off);
      ReadKeepsView(b.(clk := AddMclk(b.clk, MemSpeed(op.bank, op.off, b.fastRom))), op.off);
    } else {
      IoWritten(e, b, op.bank, op.off, op.value);
    }
  }

  lemma ReadKeepsView(b: Bus, off: word)
    requires IoReadAddress(off)
    ensures SameView(b.io, ReadIoRegister(b, off).1.io)
  {
  }

  /** The step neither strobes the controller nor writes $4200. */
  predicate LeavesPad(a: CpuAction) {
    a.Instruction? ==> forall op :: op in [a.first] + a.rest ==> !Writes(op, 0x4016) && !Writes(op, 0x4200)
  }

  ghost predicate LeavesPadBetween(script: Script, from: nat, end: nat) {
    forall at: nat :: from <= at < end ==> LeavesPad(script(at))
  }

  /** The view, the enable bit and the line of vertical blank. */
  predicate SamePad(b: Bus, r: Bus) {
    SameView(b.io, r.io) && r.clk.nmitimen == b.clk.nmitimen && r.vblankStart == b.vblankStart
  }

  lemma {:induction false} StepsLeavePad(e: Env, b: Bus, ops: seq<BusOp>)
    requires forall op :: op in ops ==> !Writes(op, 0x4016) && !Writes(op, 0x4200)
    ensures SamePad(b, Steps(e, b, ops))
    decreases ops
  {
    hide Step, Writes, Reads;
    if ops != [] {
      StepKeepsView(e, b, ops[0]);
      StepKeepsNmi(e, b, ops[0]);
      StepsLeavePad(e, Step(e, b, ops[0]), ops[1..]);
    }
  }

  lemma {:induction false} CpuLeavesPad(e: Env, b: Bus, script: Script, at: nat, target: nat)
    requires LeavesPadBetween(script, at, RunCpu(e, b, script, at, target).1)
    ensures SamePad(b, RunCpu(e, b, script, at, target).0)
    decreases if b.clk.frame < target then target - b.clk.frame else 0
  {
    hide Steps, Writes;
    if b.clk.frame < target && !b.Faulted() && script(at).Instruction? {
      var a := script(at);
      ExecuteAdvances(e, b, a);
      CpuMovesOn(e, Execute(e, b, a), script, at + 1, target);
      StepsLeavePad(e, if a.takesNmi then b.(nmiPending := false) else b, [a.first] + a.rest);
      CpuLeavesPad(e, Execute(e, b, a), script, at + 1, target);
    }
  }

  lemma CloseLeavesPad(e: Env, b: Bus, line: nat)
    ensures SamePad(b, CloseFrameLine(e, b, line))
  {
    hide ApuCatchUp;
    CatchUpKeepsIo(e);
    CatchUpKeepsNmi(e);
    CatchUpKeepsClock(e);
  }

  /** One line after the first: only the line's own start touches the view. */
  lemma LineView(e: Env, b: Bus, script: Script, at: nat, line: nat)
    requires line > 0 && LeavesPadBetween(script, at, RunLine(e, b, script, at, line).1)
    requires !RunLine(e, b, script, at, line).0.Faulted()
    ensures var r := RunLine(e, b, script, at, line).0;
            SamePad(b.(io := LineIo(b.io, line, b.vblankStart, b.clk.nmitimen % 2 == 1)), r)
  {
    hide OpenLine, LineHdma, RunCpu, CloseFrameLine, LineIo, LineClock, Bit;
    var b1 := LineHdma(e, OpenLine(e, b, line), line);
    OpenAfterStart(e, b, line);
    HdmaKeepsRest(e, OpenLine(e, b, line), line);
    LowestBit(b.clk.nmitimen);
    LineClockKeeps(b.clk, line);
    CpuLeavesPad(e, b1, script, at, (line + 1) * MCLK_PER_LINE);
    CloseLeavesPad(e, RunCpu(e, b1, script, at, (line + 1) * MCLK_PER_LINE).0, line);
  }

  lemma LineClockKeeps(c: Clock, line: nat)
    ensures LineClock(c, line).nmitimen == c.nmitimen
  {
    hide FreshTarget;
  }

  /** `n` lines one after the other. */
  function Span(e: Env, b: Bus, script: Script, at: nat, line: nat, n: nat): (Bus, nat)
    decreases n
  {
    if n == 0 then (b, at)
    else
      var (b1, at1) := Span(e, b, script, at, line, n - 1);
      RunLine(e, b1, script, at1, line + n - 1)
  }

  /** No fault in any of the lines, and a program that leaves the controller alone. */
  ghost predicate CalmSpan(e: Env, b: Bus, script: Script, at: nat, line: nat, n: nat) {
    forall k: nat | k < n ::
      var (b1, at1) := Span(e, b, script, at, line, k);
      var (b2, at2) := RunLine(e, b1, script, at1, line + k);
      !b2.Faulted() && LeavesPadBetween(script, at1, at2)
  }

  /**
   Stale reads: when vertical blank begins with automatic reading enabled, $4218-$4219 show the word latched
   before for three lines, and the buttons of this frame from the fourth on.
   */
  lemma {:induction false} StaleForThreeLines(e: Env, b: Bus, script: Script, at: nat, n: nat)
    requires 0 < b.vblankStart && b.clk.nmitimen % 2 == 1 && 1 <= n && CalmSpan(e, b, script, at, b.vblankStart, n)
    ensures var r := Span(e, b, script, at, b.vblankStart, n).0;
            && r.vblankStart == b.vblankStart && r.clk.nmitimen == b.clk.nmitimen
            && r.io.joypad.pad == b.io.joypad.pad
            && r.io.joypad.joy1 == NativeWord(b.io.joypad.pad) && r.io.joyPrev == b.io.joypad.joy1
            && (r.io.autoJoyBusy <==> n <= 3)
            && JoyInView(r.io) == (if n <= 3 then b.io.joypad.joy1 else NativeWord(b.io.joypad.pad))
    decreases n
  {
    hide RunLine, LeavesPad, NativeWord;
    var vb := b.vblankStart;
    var (b1, at1) := Span(e, b, script, at, vb, n - 1);
    assert !RunLine(e, b1, script, at1, vb + n - 1).0.Faulted();
    if n == 1 {
      assert Span(e, b, script, at, vb, 0) == (b, at);
    } else {
      assert CalmSpan(e, b, script, at, vb, n - 1);
      StaleForThreeLines(e, b, script, at, n - 1);
    }
    LineView(e, b1, script, at1, vb + n - 1);
  }

  lemma JoyShown(e: Env, b: Bus, bank: byte)
    requires SystemBank(bank)
    ensures WordRead(e, b, bank, 0x4218) == JoyInView(b.io)
  {
    hide AddMclk, MemSpeed, Read;
    IoRead(e, b, bank, 0x4218);
    IoRead(e, b, bank, 0x4219);
  }

  // ---- A whole frame ----

  lemma FirstLineView(e: Env, b: Bus, script: Script, at: nat)
    requires LeavesPadBetween(script, at, RunLine(e, b, script, at, 0).1)
    requires !RunLine(e, b, script, at, 0).0.Faulted()
    ensures var r := RunLine(e, b, script, at, 0).0;
            && r.io.joypad.pad == e.pad(b.Mem().log) % 0x1000 && r.io.joypad.joy1 == b.io.joypad.joy1
            && r.io.joyPrev == b.io.joyPrev && r.io.autoJoyBusy == b.io.autoJoyBusy
            && r.clk.nmitimen == b.clk.nmitimen && r.vblankStart == VblankLine(e, b.Mem().log)
  {
    hide OpenLine, LineHdma, RunCpu, CloseFrameLine, LineClock, Bit, Scheduled;
    var b1 := LineHdma(e, OpenLine(e, b, 0), 0);
    OpenAfterStart(e, b, 0);
    OpenLineScheduled(e, b, 0);
    BeginKeeps(e, b);
    HdmaKeepsRest(e, OpenLine(e, b, 0), 0);
    LineClockKeeps(BeginFrame(e, b).clk, 0);
    CpuLeavesPad(e, b1, script, at, MCLK_PER_LINE);
    CloseLeavesPad(e, RunCpu(e, b1, script, at, MCLK_PER_LINE).0, 0);
  }

  lemma {:induction false} LinesView(e: Env, b: Bus, script: Script, at: nat, line: nat)
    requires 0 < line <= LINES_PER_FRAME && !RunLines(e, b, script, at, line).0.Faulted()
    requires LeavesPadBetween(script, at, RunLines(e, b, script, at, line).1)
    requires b.vblankStart + 3 < LINES_PER_FRAME
    ensures var r := RunLines(e, b, script, at, line).0;
            var latches := line <= b.vblankStart && b.clk.nmitimen % 2 == 1;
            && r.io.joypad.joy1 == (if latches then NativeWord(b.io.joypad.pad) else b.io.joypad.joy1)
            && r.io.joyPrev == (if latches then b.io.joypad.joy1 else b.io.joyPrev)
            && (r.io.autoJoyBusy <==> b.io.autoJoyBusy && line > b.vblankStart + 3)
    decreases LINES_PER_FRAME - line
  {
    hide RunLine, LeavesPad, NativeWord;
    if line < LINES_PER_FRAME {
      var (b1, at1) := RunLine(e, b, script, at, line);
      LineMovesOn(e, b, script, at, line);
      LinesMoveOn(e, b1, script, at1, line + 1);
      LineView(e, b, script, at, line);
      LinesView(e, b1, script, at1, line + 1);
    }
  }

  /**
   One reading a frame: a fault-free frame whose program leaves the controller and $4200 alone ends with the
   buttons given for it latched, in the console's order, if automatic reading is enabled, and otherwise
   with the word it had; either way that word is then in view.
   */
  lemma FrameReadsPad(e: Env, c: CoreState, script: Script)
    requires !RunOneFrame(e, c, script).bus.Faulted()
    requires LeavesPadBetween(script, c.at, RunOneFrame(e, c, script).at)
    ensures var r := RunOneFrame(e, c, script).bus.io;
            && JoyInView(r) == r.joypad.joy1
            && r.joypad.joy1 == (if c.bus.clk.nmitimen % 2 == 1 then NativeWord(e.pad(c.bus.Mem().log) % 0x1000)
                                 else c.bus.io.joypad.joy1)
  {
    hide RunLine, LeavesPad, NativeWord;
    var b := CarryOver(c.bus);
    var (b1, at1) := RunLine(e, b, script, c.at, 0);
    LineMovesOn(e, b, script, c.at, 0);
    LinesMoveOn(e, b1, script, at1, 1);
    FirstLineView(e, b, script, c.at);
    LinesView(e, b1, script, at1, 1);
  }
}
