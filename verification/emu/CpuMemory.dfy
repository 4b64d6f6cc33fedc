/** The address space as a program sees it: work RAM and its mirrors, the cartridge, the WRAM port, open bus. */
module CpuMemory {
  import opened Timing
  import opened Clock
  import opened Memory
  import opened Dma
  import opened Registers
  import opened IoUnit
  import opened BusOps
  import opened BusTime
  import opened CpuPorts

  // ---- Work RAM ----

  /** Banks $7E and $7F are the 128 KiB in order; the system banks show the first 8 KiB of it; no other address does. */
  lemma WramMirrors(bank: byte, off: word)
    ensures WramIndex(0x7E, off) == Some(off) && WramIndex(0x7F, off) == Some(0x1_0000 + off)
    ensures off < 0x2000 && SystemBank(bank) ==> WramIndex(bank, off) == WramIndex(0x7E, off)
    ensures WramIndex(bank, off).Some? <==>
            bank == 0x7E || bank == 0x7F || ((bank < 0x40 || 0x80 <= bank < 0xC0) && off < 0x2000)
  {
  }

  lemma WramWritten(e: Env, b: Bus, bank: byte, off: word, v: byte)
    requires WramIndex(bank, off).Some?
    ensures Write(e, b, bank, off, v).Mem() == b.Mem().(wram := b.Mem().wram[WramIndex(bank, off).value := v])
  {
    hide AddMclk, MemSpeed;
  }

  lemma WramShown(e: Env, b: Bus, bank: byte, off: word)
    requires WramIndex(bank, off).Some?
    ensures Read(e, b, bank, off).0 == b.Mem().wram[WramIndex(bank, off).value]
    ensures Read(e, b, bank, off).1.Mem() == b.Mem().(mdr := Read(e, b, bank, off).0)
  {
    hide AddMclk, MemSpeed;
  }

  /** A byte written to work RAM is read back at every address of its cell, and no other cell changes. */
  lemma CpuReadsBack(e: Env, b: Bus, bank: byte, off: word, v: byte, bank2: byte, off2: word)
    requires WramIndex(bank, off).Some? && WramIndex(bank2, off2).Some?
    ensures Read(e, Write(e, b, bank, off, v), bank2, off2).0
            == if WramIndex(bank2, off2) == WramIndex(bank, off) then v else Read(e, b, bank2, off2).0
  {
    hide Read, Write, WramIndex;
    WramWritten(e, b, bank, off, v);
    WramShown(e, Write(e, b, bank, off, v), bank2, off2);
    WramShown(e, b, bank2, off2);
  }

  // ---- The cartridge ----

  /** The upper half of each bank holds the next 32 KiB of the ROM, again from bank $80 on and again past its end. */
  lemma RomPlaced(e: Env, sram: seq<byte>, bank: byte, k: nat)
    requires k < 0x8000 && bank <= 0x7D
    ensures CartRead(e, sram, bank, 0x8000 + k) == Some(e.rom[(0x8000 * bank + k) % |e.rom|])
    ensures CartRead(e, sram, 0x80 + bank, 0x8000 + k) == CartRead(e, sram, bank, 0x8000 + k)
    ensures CartRead(e, sram, 0xFE, 0x8000 + k) == Some(e.rom[(0x3F_0000 + k) % |e.rom|])
    ensures CartRead(e, sram, 0xFF, 0x8000 + k) == Some(e.rom[(0x3F_8000 + k) % |e.rom|])
    ensures CartRead(e, sram, 0x7E, 0x8000 + k) == None && CartRead(e, sram, 0x7F, 0x8000 + k) == None
  {
    assert (0x80 + bank) % 0x80 == bank;
  }

  /** Below $8000 only the save RAM windows answer, and only with a save RAM there. */
  lemma LowHalfAnswers(e: Env, sram: seq<byte>, bank: byte, off: word)
    requires off < 0x8000
    ensures CartRead(e, sram, bank, off).Some? <==> sram != [] && (0x70 <= bank <= 0x7D || 0xF0 <= bank <= 0xFD)
    ensures CartRead(e, sram, bank, off).Some? ==>
            CartRead(e, sram, bank, off).value == sram[(0x1_0000 * bank + off) % |sram|]
  {
  }

  /** A byte written to the save RAM is read back at every address of its cell, and no other cell changes. */
  lemma SramReadsBack(e: Env, b: Bus, bank: byte, off: word, v: byte, bank2: byte, off2: word)
    requires SramWindow(bank, off) && SramWindow(bank2, off2) && b.Mem().sram != []
    ensures Read(e, Write(e, b, bank, off, v), bank2, off2).0
            == if SramOffset(bank2, off2, |b.Mem().sram|) == SramOffset(bank, off, |b.Mem().sram|) then v
               else Read(e, b, bank2, off2).0
  {
    hide Read, Write, SramOffset;
    SramWritten(e, b, bank, off, v);
    SramShown(e, Write(e, b, bank, off, v), bank2, off2);
    SramShown(e, b, bank2, off2);
  }

  lemma SramWritten(e: Env, b: Bus, bank: byte, off: word, v: byte)
    requires SramWindow(bank, off) && b.Mem().sram != []
    ensures Write(e, b, bank, off, v).Mem()
            == b.Mem().(sram := b.Mem().sram[SramOffset(bank, off, |b.Mem().sram|) := v])
  {
    hide AddMclk, MemSpeed, SramOffset;
  }

  lemma SramShown(e: Env, b: Bus, bank: byte, off: word)
    requires SramWindow(bank, off) && b.Mem().sram != []
    ensures Read(e, b, bank, off).0 == b.Mem().sram[SramOffset(bank, off, |b.Mem().sram|)]
  {
    hide AddMclk, MemSpeed, SramOffset;
  }

  /** In the upper half of every bank but the two of work RAM the program reads the ROM. */
  lemma RomShown(e: Env, b: Bus, bank: byte, off: word)
    requires off >= 0x8000 && bank != 0x7E && bank != 0x7F
    ensures Some(Read(e, b, bank, off).0) == CartRead(e, b.Mem().sram, bank, off)
  {
    hide AddMclk, MemSpeed;
  }

  // ---- Open bus and unmapped writes ----

  predicate Latches(r: (byte, Bus)) { r.1.Mem().mdr == r.0 }

  lemma RegistersLatch(e: Env, b: Bus, bank: byte, off: word)
    ensures Latches(ReadPort(b)) && Latches(ReadCart(e, b, bank, off))
    ensures IoReadAddress(off) ==> Latches(ReadIoRegister(b, off))
    ensures Latches(ReadNmiFlag(b)) && Latches(ReadTimeup(b)) && forall v :: Latches(Latched(b, v))
    ensures 0x4300 <= off <= 0x437F ==> Latches(ReadDmaRegister(b, off))
    ensures Latches((b.Mem().mdr, b))
  {
    hide CartRead, ReadReg;
  }

  lemma DevicesLatch(e: Env, b: Bus, port: byte, reg: byte)
    ensures Latches(ApuPortRead(e, b, port)) && Latches(ReadPpuSpace(e, b, reg))
  {
    hide ApuCatchUp, ServicePendingCC;
  }

  lemma SystemLatches(e: Env, b: Bus, bank: byte, off: word)
    ensures Latches(ReadSystem(e, b, bank, off))
  {
    hide ApuPortRead, ReadPpuSpace, ReadPort, ReadIoRegister, ReadCart, ReadNmiFlag, ReadTimeup, ReadDmaRegister,
      Latches;
    RegistersLatch(e, b, bank, off);
    DevicesLatch(e, b, off % 4, if 0x2100 <= off <= 0x213F then off - 0x2100 else 0);
  }

  /** What a read answers is what the next unmapped read repeats. */
  lemma OpenBus(e: Env, b: Bus, bank: byte, off: word)
    ensures Read(e, b, bank, off).1.Mem().mdr == Read(e, b, bank, off).0
  {
    hide AddMclk, MemSpeed, ReadSystem, ReadCart;
    var b1 := WithClock(b, AddMclk(b.clk, MemSpeed(bank, off, b.fastRom)));
    RegistersLatch(e, b1, bank, off);
    SystemLatches(e, b1, bank, off);
  }

  /** Addresses of the system banks that repeat the last value read. */
  predicate Unmapped(off: word) {
    || 0x2000 <= off <= 0x2133 || 0x2181 <= off <= 0x4015 || 0x4018 <= off <= 0x420F
    || 0x4220 <= off <= 0x42FF || 0x4380 <= off <= 0x7FFF
  }

  lemma UnmappedRepeats(e: Env, b: Bus, bank: byte, off: word)
    requires SystemBank(bank) && Unmapped(off)
    ensures Read(e, b, bank, off).0 == b.Mem().mdr && Read(e, b, bank, off).1.Mem() == b.Mem()
  {
    hide AddMclk, MemSpeed;
  }

  /** Where a program may write. */
  predicate Writable(sram: seq<byte>, bank: byte, off: word) {
    || WramIndex(bank, off).Some?
    || (SramWindow(bank, off) && sram != [])
    || (SystemBank(bank) && (0x2100 <= off <= 0x2133 || 0x2140 <= off <= 0x2183 || off == 0x4016
                             || 0x4200 <= off <= 0x420D || 0x4300 <= off <= 0x437F))
  }

  /** Any other write is a fault and changes no memory. */
  lemma UnmappedFaults(e: Env, b: Bus, bank: byte, off: word, v: byte)
    requires !Writable(b.Mem().sram, bank, off)
    ensures Write(e, b, bank, off, v).Mem()
            == if b.Faulted() then b.Mem() else b.Mem().(fault := Some(UnmappedWrite(bank, off, v)))
  {
    hide AddMclk, MemSpeed, WriteSystem, AWrite;
    var b1 := WithClock(b, AddMclk(b.clk, MemSpeed(bank, off, b.fastRom)));
    if SystemBank(bank) {
      UnmappedRaises(e, b1, bank, off, v);
    } else {
      ABusMeans(e, b1.Mem(), bank, off, v);
    }
  }

  lemma UnmappedRaises(e: Env, b: Bus, bank: byte, off: word, v: byte)
    requires SystemBank(bank) && !Writable(b.Mem().sram, bank, off)
    ensures WriteSystem(e, b, bank, off, v) == Raise(b, UnmappedWrite(bank, off, v))
  {
    hide ApuPortWrite, PpuWriteReg, BWrite, WriteIrqRegister, WriteMdmaen, WriteHdmaenBus, WriteDmaRegister, WriteIo;
    hide Memory.RaiseFault;
  }

  /** A write that may be made raises no fault of its own, unless it kicks DMA or a device objects. */
  lemma WritableKeepsFault(e: Env, b: Bus, bank: byte, off: word, v: byte)
    requires Writable(b.Mem().sram, bank, off)
    requires SystemBank(bank) ==> !(0x2100 <= off <= 0x217F) && off != 0x420B
    ensures Write(e, b, bank, off, v).Mem().fault == b.Mem().fault
  {
    hide AddMclk, MemSpeed, WriteSystem, AWrite;
    var b1 := WithClock(b, AddMclk(b.clk, MemSpeed(bank, off, b.fastRom)));
    if SystemBank(bank) {
      WritableNoRaise(e, b1, bank, off, v);
    } else {
      ABusMeans(e, b1.Mem(), bank, off, v);
    }
  }

  lemma WritableNoRaise(e: Env, b: Bus, bank: byte, off: word, v: byte)
    requires SystemBank(bank) && Writable(b.Mem().sram, bank, off) && !(0x2100 <= off <= 0x217F) && off != 0x420B
    ensures WriteSystem(e, b, bank, off, v).Mem().fault == b.Mem().fault
  {
    hide ApuPortWrite, PpuWriteReg, WriteControl, SetWmaddLow, SetWmaddMid, SetWmaddHigh;
    if off >= 0x4000 { ControlNoRaise(e, b, bank, off, v); }
  }

  lemma ControlNoRaise(e: Env, b: Bus, bank: byte, off: word, v: byte)
    requires off == 0x4016 || 0x4200 <= off <= 0x420D || 0x4300 <= off <= 0x437F
    requires off != 0x420B
    ensures WriteControl(e, b, bank, off, v).Mem() == b.Mem()
  {
    hide RecomputeIrqTarget, WriteReg, Channels, SetTimerRegister, NmiEdge, WriteIo;
  }

  /** The registers a program writes are those DMA writes, except that the sound ports catch the APU up first. */
  lemma RegistersShared(e: Env, b: Bus, bank: byte, reg: byte, v: byte)
    requires SystemBank(bank) && (reg <= 0x33 || 0x80 <= reg <= 0x83)
    ensures Write(e, b, bank, 0x2100 + reg, v).Mem() == BWrite(e, b.Mem(), reg, v)
    ensures reg == 0x80 ==> Read(e, b, bank, 0x2180).0 == BRead(e, b.Mem(), 0x80).0
                            && Read(e, b, bank, 0x2180).1.Mem() == BRead(e, b.Mem(), 0x80).1
  {
    hide AddMclk, MemSpeed;
  }

  // ---- Devices and DMA registers ----

  /**
   The A side of DMA: work RAM and save RAM as the program sees them; the register space of the system banks
   takes nothing and answers open bus, ROM answers and faults when written, and so does any other address.
   */
  lemma ABusMeans(e: Env, m: Mem, bank: byte, off: word, v: byte)
    ensures WramIndex(bank, off).Some? ==>
              && ARead(e, m, bank, off) == m.wram[WramIndex(bank, off).value]
              && AWrite(m, bank, off, v) == m.(wram := m.wram[WramIndex(bank, off).value := v])
    ensures SystemBank(bank) && 0x2000 <= off <= 0x5FFF ==>
            ARead(e, m, bank, off) == m.mdr && AWrite(m, bank, off, v) == m
    ensures WramIndex(bank, off).None? && !(SystemBank(bank) && 0x2000 <= off <= 0x5FFF) ==>
              && (CartRead(e, m.sram, bank, off).Some? ==>
                 Some(ARead(e, m, bank, off)) == CartRead(e, m.sram, bank, off))
              && (CartRead(e, m.sram, bank, off).None? ==> ARead(e, m, bank, off) == m.mdr)
              && (SramWindow(bank, off) && m.sram != [] ==>
                    AWrite(m, bank, off, v) == m.(sram := m.sram[SramOffset(bank, off, |m.sram|) := v]))
              && (!SramWindow(bank, off) || m.sram == [] ==>
                    AWrite(m, bank, off, v)
                    == if m.fault.Some? then m else m.(fault := Some(UnmappedWrite(bank, off, v))))
  {
    hide SramOffset;
  }

  /** What a device register answers DMA, what it leaves in the event log, and which registers answer nothing. */
  lemma DevicesRead(e: Env, m: Mem, reg: byte)
    ensures 0x34 <= reg <= 0x3F ==>
              var v := e.ppuRead(m.log, reg, m.mdr);
              BRead(e, m, reg) == (v, m.(log := m.log + [PpuRead(reg)], mdr := v))
    ensures 0x40 <= reg <= 0x7F ==>
              var v := e.apuRead(m.log, reg % 4);
              BRead(e, m, reg) == (v, m.(log := m.log + [ApuRead(reg % 4)], mdr := v))
    ensures reg < 0x34 || reg > 0x80 ==> BRead(e, m, reg) == (m.mdr, m)
  {
  }

  /** What a device register does with a byte, and which registers take none. */
  lemma DevicesWritten(e: Env, m: Mem, reg: byte, v: byte)
    ensures reg < 0x34 ==>
              var objection := e.ppuFault(m.log, reg, v);
              BWrite(e, m, reg, v)
              == m.(log := m.log + [PpuWrite(reg, v)], fault := if m.fault.Some? then m.fault else objection)
    ensures 0x40 <= reg <= 0x7F ==> BWrite(e, m, reg, v) == m.(log := m.log + [ApuWrite(reg % 4, v)])
    ensures 0x34 <= reg <= 0x3F || reg > 0x83 ==> BWrite(e, m, reg, v) == m
  {
  }

  /** The program reads the picture unit the same way, but $2137 first latches where the beam is. */
  lemma PictureRead(e: Env, b: Bus, bank: byte, reg: byte)
    requires SystemBank(bank) && 0x34 <= reg <= 0x3F
    ensures var (v, r) := Read(e, b, bank, 0x2100 + reg);
            var seen := b.Mem().log + (if reg == 0x37 then [PpuLatch(r.clk.frame % 1364 / 4)] else []);
            && v == e.ppuRead(seen, reg, b.Mem().mdr)
            && r.Mem() == b.Mem().(log := seen + [PpuRead(reg)], mdr := v)
  {
    hide AddMclk, MemSpeed;
    assert b.Mem().log + [] == b.Mem().log;
  }

  /**
   Register `reg` of channel `i` is at $4300 + 16 i + reg: written and read there, it reads back, and
   no other changes.
   */
  lemma DmaRegisterReadsBack(e: Env, b: Bus, bank: byte, i: nat, reg: byte, v: byte, j: nat, other: byte)
    requires SystemBank(bank) && i < 8 && j < 8 && reg <= 0xF && other <= 0xA
    ensures Read(e, Write(e, b, bank, 0x4300 + 0x10 * i + reg, v), bank, 0x4300 + 0x10 * j + other).0
            == if i == j && reg == other then v else Read(e, b, bank, 0x4300 + 0x10 * j + other).0
  {
    hide Read, Write, ReadReg, WriteReg;
    DmaRegisterWritten(e, b, bank, i, reg, v);
    var b1 := Write(e, b, bank, 0x4300 + 0x10 * i + reg, v);
    DmaRegisterShown(e, b, bank, j, other);
    DmaRegisterShown(e, b1, bank, j, other);
    RegisterReadsBack(b.hub.ch[i], reg, v, other);
  }

  lemma DmaRegisterWritten(e: Env, b: Bus, bank: byte, i: nat, reg: byte, v: byte)
    requires SystemBank(bank) && i < 8 && reg <= 0xF
    ensures Write(e, b, bank, 0x4300 + 0x10 * i + reg, v).hub
            == b.hub.(ch := b.hub.ch[i := WriteReg(b.hub.ch[i], reg, v)])
  {
    hide AddMclk, MemSpeed, WriteReg;
    assert (0x10 * i + reg) / 0x10 == i && (0x10 * i + reg) % 0x10 == reg;
    assert (0x4300 + 0x10 * i + reg) % 0x10 == reg;
  }

  lemma DmaRegisterShown(e: Env, b: Bus, bank: byte, j: nat, reg: byte)
    requires SystemBank(bank) && j < 8 && reg <= 0xA
    ensures ReadReg(b.hub.ch[j], reg) == Some(Read(e, b, bank, 0x4300 + 0x10 * j + reg).0)
  {
    hide AddMclk, MemSpeed;
    assert (0x10 * j + reg) / 0x10 == j && (0x10 * j + reg) % 0x10 == reg;
    assert (0x4300 + 0x10 * j + reg) % 0x10 == reg;
  }

  // ---- The WRAM port ----

  /** The three address registers hold one byte of the port address each, the last a single bit. */
  lemma PortAddressWritten(e: Env, m: Mem, reg: byte, v: byte)
    requires 0x81 <= reg <= 0x83
    ensures var (a, c) := (m.wmadd, BWrite(e, m, reg, v).wmadd);
            && c % 0x100 == (if reg == 0x81 then v else a % 0x100)
            && c / 0x100 % 0x100 == (if reg == 0x82 then v else a / 0x100 % 0x100)
            && c / 0x1_0000 == (if reg == 0x83 then v % 2 else a / 0x1_0000)
    ensures BWrite(e, m, reg, v) == m.(wmadd := BWrite(e, m, reg, v).wmadd)
  {
    hide SetWmaddLow, SetWmaddMid, SetWmaddHigh;
    PortAddressParts(m.wmadd, v);
  }

  lemma PortAddressParts(a: WramAddr, v: byte)
    ensures var c := SetWmaddLow(a, v);
            c % 0x100 == v && c / 0x100 % 0x100 == a / 0x100 % 0x100 && c / 0x1_0000 == a / 0x1_0000
    ensures var c := SetWmaddMid(a, v);
            c % 0x100 == a % 0x100 && c / 0x100 % 0x100 == v && c / 0x1_0000 == a / 0x1_0000
    ensures var c := SetWmaddHigh(a, v);
            c % 0x100 == a % 0x100 && c / 0x100 % 0x100 == a / 0x100 % 0x100 && c / 0x1_0000 == v % 2
  {
    var (low, mid, high) := (a % 0x100, a / 0x100 % 0x100, a / 0x1_0000);
    ThreeParts(a);
    assert SetWmaddLow(a, v) == v + 0x100 * mid + 0x1_0000 * high;
    Spelled(v, mid, high);
    assert SetWmaddMid(a, v) == low + 0x100 * v + 0x1_0000 * high;
    Spelled(low, v, high);
    assert SetWmaddHigh(a, v) == low + 0x100 * mid + 0x1_0000 * (v % 2);
    Spelled(low, mid, v % 2);
  }

  lemma ThreeParts(a: nat)
    ensures a == a % 0x100 + 0x100 * (a / 0x100 % 0x100) + 0x1_0000 * (a / 0x1_0000)
  {
    assert a / 0x1_0000 == a / 0x100 / 0x100;
  }

  lemma Spelled(low: byte, mid: byte, high: nat)
    ensures var c := low + 0x100 * mid + 0x1_0000 * high;
            c % 0x100 == low && c / 0x100 % 0x100 == mid && c / 0x1_0000 == high
  {
    assert (low + 0x100 * mid + 0x1_0000 * high) / 0x100 == mid + 0x100 * high;
  }

  /** Writes of a whole string through the port, one byte after the other. */
  function PortWrites(e: Env, m: Mem, bytes: seq<byte>): Mem {
    if bytes == [] then m
    else BWrite(e, PortWrites(e, m, bytes[..|bytes| - 1]), 0x80, bytes[|bytes| - 1])
  }

  function PortReads(e: Env, m: Mem, n: nat): (seq<byte>, Mem) {
    if n == 0 then ([], m)
    else
      var (bytes, m1) := PortReads(e, m, n - 1);
      var (v, m2) := BRead(e, m1, 0x80);
      (bytes + [v], m2)
  }

  /** The cell `i` places after `a`, around the end of work RAM. */
  function Cell(a: WramAddr, i: nat): WramAddr { (a + i) % 0x2_0000 }

  /** One of the first `n` cells from `a` on. */
  predicate Within(a: WramAddr, n: nat, j: WramAddr) { exists i | 0 <= i < n :: Cell(a, i) == j }

  lemma CellsApart(a: WramAddr, i: nat, j: nat)
    requires i < j < 0x2_0000
    ensures Cell(a, i) != Cell(a, j)
  {
  }

  lemma NextCell(a: WramAddr, k: nat)
    ensures Cell(Cell(a, k), 1) == Cell(a, k + 1) && Cell(a, 0) == a
  {
    AroundTheEnd(a + k);
  }

  lemma AroundTheEnd(x: nat)
    ensures (x % 0x2_0000 + 1) % 0x2_0000 == (x + 1) % 0x2_0000
  {
    var (q, r) := (x / 0x2_0000, x % 0x2_0000);
    assert x + 1 == 0x2_0000 * q + (r + 1);
    if r + 1 == 0x2_0000 { assert x + 1 == 0x2_0000 * (q + 1); }
  }

  lemma OneByte(e: Env, m: Mem, v: byte)
    ensures BWrite(e, m, 0x80, v) == m.(wram := m.wram[m.wmadd := v], wmadd := Cell(m.wmadd, 1))
    ensures BRead(e, m, 0x80) == (m.wram[m.wmadd], m.(mdr := m.wram[m.wmadd], wmadd := Cell(m.wmadd, 1)))
  {
  }

  /** A string written through the port lies in the cells from the port address on, and nowhere else. */
  lemma {:induction false} PortStores(e: Env, m: Mem, bytes: seq<byte>)
    requires |bytes| <= 0x2_0000
    ensures var n := PortWrites(e, m, bytes);
            && n.wmadd == Cell(m.wmadd, |bytes|)
            && (forall i | 0 <= i < |bytes| :: n.wram[Cell(m.wmadd, i)] == bytes[i])
            && (forall j: WramAddr | !Within(m.wmadd, |bytes|, j) :: n.wram[j] == m.wram[j])
    decreases bytes
  {
    hide Cell, BWrite;
    if bytes == [] {
      NextCell(m.wmadd, 0);
    } else {
      var k := |bytes| - 1;
      var n := PortWrites(e, m, bytes[..k]);
      PortStores(e, m, bytes[..k]);
      NextCell(m.wmadd, k);
      OneByte(e, n, bytes[k]);
      forall i | 0 <= i < k ensures Cell(m.wmadd, i) != Cell(m.wmadd, k) { CellsApart(m.wmadd, i, k); }
      forall j: WramAddr | !Within(m.wmadd, |bytes|, j) ensures PortWrites(e, m, bytes).wram[j] == m.wram[j] {
        assert Cell(m.wmadd, k) != j;
        assert !Within(m.wmadd, k, j);
      }
    }
  }

  lemma {:induction false} PortFetches(e: Env, m: Mem, n: nat)
    ensures var (bytes, r) := PortReads(e, m, n);
            && |bytes| == n && r.wmadd == Cell(m.wmadd, n) && r.wram == m.wram
            && forall i | 0 <= i < n :: bytes[i] == m.wram[Cell(m.wmadd, i)]
    decreases n
  {
    hide Cell, BRead;
    if n == 0 {
      NextCell(m.wmadd, 0);
    } else {
      PortFetches(e, m, n - 1);
      OneByte(e, PortReads(e, m, n - 1).1, 0);
      NextCell(m.wmadd, n - 1);
    }
  }

  /** What went in through the port comes out again when its address is set back. */
  lemma PortRoundTrip(e: Env, m: Mem, bytes: seq<byte>)
    requires |bytes| <= 0x2_0000
    ensures PortReads(e, PortWrites(e, m, bytes).(wmadd := m.wmadd), |bytes|).0 == bytes
  {
    hide Cell, Within;
    PortStores(e, m, bytes);
    PortFetches(e, PortWrites(e, m, bytes).(wmadd := m.wmadd), |bytes|);
  }
}
