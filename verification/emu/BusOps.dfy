/** The CPU's view of the bus: clocked reads and writes, the registers behind them, APU catch-up. */
module BusOps {
  import opened Timing
  import opened Clock
  import opened Memory
  import opened Dma
  import opened Hdma
  import opened IoUnit

  datatype Bus = Bus(
    clk: Clock,
    hub: Hub,
    apuBase: u64,
    pendingCC: bool,
    pendingStrobe: bool,
    nmiFlag: bool,
    nmiPending: bool,
    fastRom: bool,
    vblankStart: nat,
    io: IoRegs)
  {
    function Mem(): Mem { hub.mem }
    predicate Faulted() { hub.mem.fault.Some? }
  }

  function WithMem(b: Bus, m: Mem): Bus { b.(hub := b.hub.(mem := m)) }
  function WithClock(b: Bus, c: Clock): Bus { b.(clk := c) }
  function Emit(b: Bus, ev: DevEvent): Bus { WithMem(b, b.Mem().(log := b.Mem().log + [ev])) }
  function Raise(b: Bus, f: Fault): Bus { WithMem(b, RaiseFault(b.Mem(), f)) }
  function RaiseIf(b: Bus, f: Option<Fault>): Bus { if f.Some? then Raise(b, f.value) else b }

  // ---- APU catch-up ----

  function AdvanceApuTo(e: Env, b: Bus, target: u64): Bus {
    if b.apuBase >= target then b
    else
      var b1 := Emit(b.(apuBase := target), ApuAdvance(target - b.apuBase));
      RaiseIf(b1, e.apuHalt(b1.Mem().log))
  }

  function ApuCatchUp(e: Env, b: Bus): Bus { AdvanceApuTo(e, b, b.clk.total) }

  function ServicePendingCC(e: Env, b: Bus): Bus {
    if !b.pendingCC then b
    else
      var b1 := b.(pendingCC := false);
      if !e.apuPolling(b1.Mem().log) || !e.apuPort0IsCC(b1.Mem().log) then b1
      else
        var b2 := Emit(b1, ApuStep);
        RaiseIf(b2, e.apuHalt(b2.Mem().log))
  }

  function ApuPortRead(e: Env, b: Bus, port: byte): (byte, Bus) {
    var b1 := ServicePendingCC(e, ApuCatchUp(e, b));
    var (v, m) := ApuReadPort(e, b1.Mem(), port);
    (v, WithMem(b1, m))
  }

  /** Whether this write waits for the data byte that follows a transfer strobe. */
  predicate DefersCatchUp(e: Env, b: Bus, port: byte) {
    b.pendingStrobe && port != 0 && e.apuTransferring(b.Mem().log)
  }

  /** Catch-up, unless deferred, and a pending kick that a new port-0 value would overwrite. */
  function BeforePortWrite(e: Env, b: Bus, port: byte, value: byte): Bus {
    var b1 := if DefersCatchUp(e, b, port) then b else ApuCatchUp(e, b);
    if b1.pendingCC && port == 0 && value != 0xCC then ServicePendingCC(e, b1) else b1
  }

  function AfterPortWrite(e: Env, b: Bus, port: byte, value: byte): Bus {
    if port == 0 && value == 0xCC && e.apuPolling(b.Mem().log) then b.(pendingCC := true)
    else if b.pendingCC && port != 0 then ServicePendingCC(e, b)
    else b
  }

  function EndPortWrite(e: Env, b: Bus, port: byte, defer: bool): Bus {
    var b1 := if defer then ApuCatchUp(e, b.(pendingStrobe := false)) else b;
    if port == 0 && e.apuTransferring(b1.Mem().log) then b1.(pendingStrobe := true) else b1
  }

  function ApuPortWrite(e: Env, b: Bus, port: byte, value: byte): Bus {
    var b1 := Emit(BeforePortWrite(e, b, port, value), ApuWrite(port, value));
    EndPortWrite(e, AfterPortWrite(e, b1, port, value), port, DefersCatchUp(e, b, port))
  }

  // ---- Register writes with an effect on the bus itself ----

  /** $4200, $4207-$420A: the registers the timer target is computed from. */
  predicate IrqRegister(off: word) { off == 0x4200 || 0x4207 <= off <= 0x420A }

  /** The low byte and the ninth bit of an H or V position. */
  function NineLow(x: nat, v: byte): nat { x / 0x100 % 2 * 0x100 + v }
  function NineHigh(x: nat, v: byte): nat { v % 2 * 0x100 + x % 0x100 }

  function SetTimerRegister(c: Clock, off: word, v: byte): Clock {
    if off == 0x4200 then c.(nmitimen := v)
    else if off == 0x4207 then c.(htime := NineLow(c.htime, v))
    else if off == 0x4208 then c.(htime := NineHigh(c.htime, v))
    else if off == 0x4209 then c.(vtime := NineLow(c.vtime, v))
    else c.(vtime := NineHigh(c.vtime, v))
  }

  /** Enabling NMI while the flag is already up is an edge of its own. */
  predicate NmiEdge(b: Bus, off: word, v: byte) {
    off == 0x4200 && Bit(v, 7) && !Bit(b.clk.nmitimen, 7) && b.nmiFlag
  }

  function WriteIrqRegister(b: Bus, off: word, v: byte): Bus {
    b.(clk := RecomputeIrqTarget(SetTimerRegister(b.clk, off, v)), nmiPending := b.nmiPending || NmiEdge(b, off, v))
  }

  function KickDma(e: Env, b: Bus, mask: set<nat>): Bus {
    var k := ExecuteDma(e, Kick(b.clk, b.hub.mem, b.hub.ch), mask);
    b.(clk := k.clk, hub := b.hub.(mem := k.mem, ch := k.ch))
  }

  /** $420B: a general DMA kick, refused when a channel is also enabled for HDMA. */
  function WriteMdmaen(e: Env, b: Bus, v: byte): Bus {
    var mask := Channels(v);
    if v == 0 then b
    else if mask * b.hub.hdmaen != {} then Raise(b, HdmaDmaConflict(mask * b.hub.hdmaen))
    else KickDma(e, b, mask)
  }

  function WriteHdmaenBus(b: Bus, v: byte): Bus { b.(hub := WriteHdmaen(b.hub, Channels(v))) }

  function WriteDmaRegister(b: Bus, off: word, v: byte): Bus
    requires 0x4300 <= off <= 0x437F
  {
    var i := (off - 0x4300) / 0x10;
    b.(hub := b.hub.(ch := b.hub.ch[i := WriteReg(b.hub.ch[i], off % 0x10, v)]))
  }

  // ---- Reads ----

  function Latched(b: Bus, v: byte): (byte, Bus) { (v, WithMem(b, b.Mem().(mdr := v))) }

  function ReadPpuSpace(e: Env, b: Bus, reg: byte): (byte, Bus) {
    if reg <= 0x33 then (b.Mem().mdr, b)
    else
      var b1 := if reg == 0x37 then Emit(b, PpuLatch(b.clk.frame % MCLK_PER_LINE / 4)) else b;
      var (v, m) := PpuReadReg(e, b1.Mem(), reg);
      (v, WithMem(b1, m))
  }

  /** $4210: reading the vertical-blank flag clears it. */
  function ReadNmiFlag(b: Bus): (byte, Bus) {
    Latched(b.(nmiFlag := false), (if b.nmiFlag then 0x80 else 0) + 2 + b.Mem().mdr / 0x10 % 8 * 0x10)
  }

  /** $4211: reading the timer flag clears it. */
  function ReadTimeup(b: Bus): (byte, Bus) {
    Latched(b.(clk := b.clk.(irqFlag := false)), (if b.clk.irqFlag then 0x80 else 0) + b.Mem().mdr % 0x80)
  }

  predicate InHblank(c: Clock) { c.frame % MCLK_PER_LINE >= HBLANK_START_DOT * 4 }

  /** The controller ports, the status byte, and the results of multiplier, divider and automatic reading. */
  function ReadIoRegister(b: Bus, off: word): (byte, Bus)
    requires IoReadAddress(off)
  {
    var (v, io) := ReadIo(b.io, off, b.Mem().mdr, b.clk.line >= b.vblankStart, InHblank(b.clk));
    Latched(b.(io := io), v)
  }

  function ReadDmaRegister(b: Bus, off: word): (byte, Bus)
    requires 0x4300 <= off <= 0x437F
  {
    var v := ReadReg(b.hub.ch[(off - 0x4300) / 0x10], off % 0x10);
    Latched(b, if v.Some? then v.value else b.Mem().mdr)
  }

  function ReadPort(b: Bus): (byte, Bus) {
    var (v, m) := WmdataRead(b.Mem());
    (v, WithMem(b, m))
  }

  function ReadCart(e: Env, b: Bus, bank: byte, off: word): (byte, Bus) {
    var v := CartRead(e, b.Mem().sram, bank, off);
    Latched(b, if v.Some? then v.value else b.Mem().mdr)
  }

  function ReadSystem(e: Env, b: Bus, bank: byte, off: word): (byte, Bus) {
    if off < 0x2000 then Latched(b, b.Mem().wram[off])
    else if 0x2100 <= off <= 0x213F then ReadPpuSpace(e, b, off - 0x2100)
    else if 0x2140 <= off <= 0x217F then ApuPortRead(e, b, off % 4)
    else if off == 0x2180 then ReadPort(b)
    else if off == 0x4210 then ReadNmiFlag(b)
    else if off == 0x4211 then ReadTimeup(b)
    else if IoReadAddress(off) then ReadIoRegister(b, off)
    else if 0x4300 <= off <= 0x437F then ReadDmaRegister(b, off)
    else if off >= 0x8000 then ReadCart(e, b, bank, off)
    else (b.Mem().mdr, b)
  }

  function Read(e: Env, b: Bus, bank: byte, off: word): (byte, Bus) {
    var b1 := WithClock(b, AddMclk(b.clk, MemSpeed(bank, off, b.fastRom)));
    if bank == 0x7E || bank == 0x7F then Latched(b1, b1.Mem().wram[(bank - 0x7E) * 0x1_0000 + off])
    else if SystemBank(bank) then ReadSystem(e, b1, bank, off)
    else ReadCart(e, b1, bank, off)
  }

  // ---- Writes ----

  /** $4200 and up: the CPU's own registers and the DMA register file. */
  function WriteControl(e: Env, b: Bus, bank: byte, off: word, v: byte): Bus {
    if IrqRegister(off) then WriteIrqRegister(b, off, v)
    else if IoWriteAddress(off) then b.(io := WriteIo(b.io, off, v))
    else if off == 0x420B then WriteMdmaen(e, b, v)
    else if off == 0x420C then WriteHdmaenBus(b, v)
    else if off == 0x420D then b.(fastRom := v % 2 == 1)
    else if 0x4300 <= off <= 0x437F then WriteDmaRegister(b, off, v)
    else Raise(b, UnmappedWrite(bank, off, v))
  }

  function WriteSystem(e: Env, b: Bus, bank: byte, off: word, v: byte): Bus {
    if off < 0x2000 then WithMem(b, b.Mem().(wram := b.Mem().wram[off := v]))
    else if 0x2100 <= off <= 0x2133 then WithMem(b, PpuWriteReg(e, b.Mem(), off - 0x2100, v))
    else if 0x2140 <= off <= 0x217F then ApuPortWrite(e, b, off % 4, v)
    else if 0x2180 <= off <= 0x2183 then WithMem(b, BWrite(e, b.Mem(), off - 0x2100, v))
    else WriteControl(e, b, bank, off, v)
  }

  function Write(e: Env, b: Bus, bank: byte, off: word, v: byte): Bus {
    var b1 := WithClock(b, AddMclk(b.clk, MemSpeed(bank, off, b.fastRom)));
    if SystemBank(bank) then WriteSystem(e, b1, bank, off, v)
    else WithMem(b1, AWrite(b1.Mem(), bank, off, v))
  }

  function Idle(b: Bus): Bus { WithClock(b, AddMclk(b.clk, MCLK_PER_INTERNAL_CYCLE)) }

  /** One clocked bus operation of the CPU. */
  datatype BusOp =
    | OpRead(bank: byte, off: word)
    | OpWrite(bank: byte, off: word, value: byte)
    | OpIdle

  function Step(e: Env, b: Bus, op: BusOp): Bus {
    match op
    case OpRead(bank, off) => Read(e, b, bank, off).1
    case OpWrite(bank, off, v) => Write(e, b, bank, off, v)
    case OpIdle => Idle(b)
  }

  function Steps(e: Env, b: Bus, ops: seq<BusOp>): Bus
    decreases ops
  {
    if ops == [] then b else Steps(e, Step(e, b, ops[0]), ops[1..])
  }

  // ---- The scanline hook ----

  /** Line 0 rearms the timer; the first blanking line raises the vertical-blank flag and reads the controller. */
  function LineClock(c: Clock, line: nat): Clock {
    if line == 0 then RecomputeIrqTarget(c.(line := 0)) else c.(line := line)
  }

  predicate EntersVblank(b: Bus, line: nat) { line != 0 && line == b.vblankStart }

  function StartLine(b: Bus, line: nat): Bus {
    b.(clk := LineClock(b.clk, line),
       nmiFlag := line != 0 && (b.nmiFlag || EntersVblank(b, line)),
       nmiPending := b.nmiPending || (EntersVblank(b, line) && Bit(b.clk.nmitimen, 7)),
       io := LineIo(b.io, line, b.vblankStart, Bit(b.clk.nmitimen, 0)))
  }
}
