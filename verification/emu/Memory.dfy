/**
 What DMA can reach: work RAM, the cartridge, and the B-bus devices.

 The picture and sound chips are opaque. They are a log of the events sent to them and an
 environment that answers from that log, so any deterministic device is covered.
 */
module Memory {
  import opened Timing

  const WRAM_SIZE := 0x2_0000

  datatype Fault =
    | CpuStopped
    | UnmappedWrite(bank: byte, off: word, value: byte)
    | HdmaDmaConflict(channels: set<nat>)
    | DeviceFault(code: nat)

  datatype DevEvent =
    | PpuWrite(reg: byte, value: byte)
    | PpuRead(reg: byte)
    | PpuLatch(dot: nat)
    | PpuBeginFrame
    | PpuSetLine(line: nat)
    | PpuBeginVblank
    | PpuRender(line: nat)
    | ApuWrite(port: byte, value: byte)
    | ApuRead(port: byte)
    | ApuAdvance(cycles: nat)
    | ApuStep

  type Log = seq<DevEvent>

  /** The cartridge ROM and the answers of the devices, each a function of the event log. */
  datatype RawEnv = RawEnv(
    rom: seq<byte>,
    ppuFault: (Log, byte, byte) -> Option<Fault>,
    ppuRead: (Log, byte, byte) -> byte,
    overscan: Log -> bool,
    apuRead: (Log, byte) -> byte,
    apuHalt: Log -> Option<Fault>,
    apuPolling: Log -> bool,
    apuTransferring: Log -> bool,
    apuPort0IsCC: Log -> bool,
    pad: Log -> word)

  type Env = e: RawEnv | 0 < |e.rom|
    ghost witness RawEnv([0], (l, r, v) => None, (l, r, m) => m, l => false, (l, p) => 0, l => None,
                         l => false, l => false, l => false, l => 0)

  type Wram = s: seq<byte> | |s| == WRAM_SIZE ghost witness seq(WRAM_SIZE, _ => 0)
  type WramAddr = x: int | 0 <= x < WRAM_SIZE

  /** `sram` is empty when the cartridge has no save RAM. */
  datatype Mem = Mem(wram: Wram, sram: seq<byte>, mdr: byte, wmadd: WramAddr, log: Log, fault: Option<Fault>)

  /** Only the first fault is kept. */
  function RaiseFault(m: Mem, f: Fault): Mem {
    if m.fault.None? then m.(fault := Some(f)) else m
  }

  // ---- Cartridge ----

  predicate SramWindow(bank: byte, off: word) {
    (0x70 <= bank <= 0x7D || 0xF0 <= bank <= 0xFD) && off < 0x8000
  }

  function SramOffset(bank: byte, off: word, size: nat): (i: nat)
    requires 0 < size
    ensures i < size
  {
    (bank * 0x1_0000 + off) % size
  }

  function CartRead(e: Env, sram: seq<byte>, bank: byte, off: word): Option<byte> {
    if off >= 0x8000 && (bank <= 0x7D || 0x80 <= bank) then
      Some(e.rom[(bank % 0x80 * 0x8000 + (off - 0x8000)) % |e.rom|])
    else if SramWindow(bank, off) && sram != [] then
      Some(sram[SramOffset(bank, off, |sram|)])
    else None
  }

  // ---- A bus ----

  /** Where an A-bus address lands in work RAM, if it does. */
  function WramIndex(bank: byte, off: word): Option<WramAddr> {
    if bank == 0x7E || bank == 0x7F then Some((bank - 0x7E) * 0x1_0000 + off)
    else if SystemBank(bank) && off < 0x2000 then Some(off)
    else None
  }

  /** The register space, which DMA cannot reach from its A side. */
  predicate ARegisterSpace(bank: byte, off: word) {
    SystemBank(bank) && 0x2000 <= off < 0x6000
  }

  function ARead(e: Env, m: Mem, bank: byte, off: word): byte {
    if ARegisterSpace(bank, off) then m.mdr
    else if WramIndex(bank, off).Some? then m.wram[WramIndex(bank, off).value]
    else
      var v := CartRead(e, m.sram, bank, off);
      if v.Some? then v.value else m.mdr
  }

  function AWrite(m: Mem, bank: byte, off: word, value: byte): Mem {
    if ARegisterSpace(bank, off) then m
    else if WramIndex(bank, off).Some? then m.(wram := m.wram[WramIndex(bank, off).value := value])
    else if SramWindow(bank, off) && m.sram != [] then
      m.(sram := m.sram[SramOffset(bank, off, |m.sram|) := value])
    else RaiseFault(m, UnmappedWrite(bank, off, value))
  }

  // ---- B bus ----

  function SetWmaddLow(a: WramAddr, v: byte): WramAddr { a / 0x100 * 0x100 + v }
  function SetWmaddMid(a: WramAddr, v: byte): WramAddr { a / 0x1_0000 * 0x1_0000 + v * 0x100 + a % 0x100 }
  function SetWmaddHigh(a: WramAddr, v: byte): WramAddr { v % 2 * 0x1_0000 + a % 0x1_0000 }

  function WmdataWrite(m: Mem, value: byte): Mem {
    m.(wram := m.wram[m.wmadd := value], wmadd := (m.wmadd + 1) % WRAM_SIZE)
  }

  function WmdataRead(m: Mem): (byte, Mem) {
    var v := m.wram[m.wmadd];
    (v, m.(wmadd := (m.wmadd + 1) % WRAM_SIZE, mdr := v))
  }

  function PpuWriteReg(e: Env, m: Mem, reg: byte, value: byte): Mem {
    var f := e.ppuFault(m.log, reg, value);
    var m1 := m.(log := m.log + [PpuWrite(reg, value)]);
    if f.Some? then RaiseFault(m1, f.value) else m1
  }

  function PpuReadReg(e: Env, m: Mem, reg: byte): (byte, Mem) {
    var v := e.ppuRead(m.log, reg, m.mdr);
    (v, m.(log := m.log + [PpuRead(reg)], mdr := v))
  }

  function ApuReadPort(e: Env, m: Mem, port: byte): (byte, Mem) {
    var v := e.apuRead(m.log, port);
    (v, m.(log := m.log + [ApuRead(port)], mdr := v))
  }

  function BRead(e: Env, m: Mem, reg: byte): (byte, Mem) {
    if reg <= 0x33 then (m.mdr, m)
    else if reg <= 0x3F then PpuReadReg(e, m, reg)
    else if reg <= 0x7F then ApuReadPort(e, m, reg % 4)
    else if reg == 0x80 then WmdataRead(m)
    else (m.mdr, m)
  }

  function BWrite(e: Env, m: Mem, reg: byte, value: byte): Mem {
    if reg <= 0x33 then PpuWriteReg(e, m, reg, value)
    else if 0x40 <= reg <= 0x7F then m.(log := m.log + [ApuWrite(reg % 4, value)])
    else if reg == 0x80 then WmdataWrite(m, value)
    else if reg == 0x81 then m.(wmadd := SetWmaddLow(m.wmadd, value))
    else if reg == 0x82 then m.(wmadd := SetWmaddMid(m.wmadd, value))
    else if reg == 0x83 then m.(wmadd := SetWmaddHigh(m.wmadd, value))
    else m
  }

  /** A B-bus write to anything but the WRAM port leaves every A-bus byte as it was. */
  lemma BWriteKeepsABus(e: Env, m: Mem, reg: byte, value: byte, bank: byte, off: word)
    requires reg != 0x80
    ensures ARead(e, BWrite(e, m, reg, value), bank, off) == ARead(e, m, bank, off)
  {
  }
}
