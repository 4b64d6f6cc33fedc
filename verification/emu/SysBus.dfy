/**
 The system bus as the object the emulator mutates. Every method is proved to take the abstract
 bus state exactly where the specification function of the same name takes it.
 */
module SystemBus {
  import opened Timing
  import opened Clock
  import opened Memory
  import opened Dma
  import opened Hdma
  import opened IoUnit
  import BusOps

  type Bus = BusOps.Bus

  class SysBus {
    const e: Env
    const wram: array<byte>
    const sram: array<byte>
    const ch: array<DmaChannel>
    const state: array<HdmaState>

    var mdr: byte
    var wmadd: WramAddr
    var log: Log
    var fault: Option<Fault>

    var mclkFrame: nat
    var mclkTotal: u64
    var irqFlag: bool
    var irqTarget: Option<nat>
    var nmitimen: byte
    var htime: nat
    var vtime: nat
    var line: nat
    ghost var fired: seq<nat>

    var hdmaen: set<nat>
    var hdmaEnded: set<nat>
    ghost var out: seq<Sent>

    var apuBase: u64
    var pendingCC: bool
    var pendingStrobe: bool
    var nmiFlag: bool
    var nmiPending: bool
    var fastRom: bool
    var vblankStart: nat
    var io: IoRegs

    ghost predicate Valid() {
      && wram.Length == WRAM_SIZE && ch.Length == 8 && state.Length == 8
      && wram != sram
      && wram as object != ch && wram as object != state
      && sram as object != ch && sram as object != state
      && ch as object != state
    }

    ghost function ClockNow(): Clock
      reads `mclkFrame, `mclkTotal, `irqFlag, `irqTarget, `nmitimen, `htime, `vtime, `line, `fired
    {
      Clock(mclkFrame, mclkTotal, irqFlag, irqTarget, nmitimen, htime, vtime, line, fired)
    }

    ghost function MemNow(): Mem
      requires Valid()
      reads `mdr, `wmadd, `log, `fault, wram, sram
    {
      Mem(wram[..], sram[..], mdr, wmadd, log, fault)
    }

    ghost function HubNow(): Hub
      requires Valid()
      reads `mdr, `wmadd, `log, `fault, `hdmaen, `hdmaEnded, `out, wram, sram, ch, state
    {
      Hub(MemNow(), ch[..], state[..], hdmaen, hdmaEnded, out)
    }

    /** The abstract bus state. */
    ghost function Now(): Bus
      requires Valid()
      reads this, wram, sram, ch, state
    {
      BusOps.Bus(ClockNow(), HubNow(), apuBase, pendingCC, pendingStrobe, nmiFlag, nmiPending, fastRom, vblankStart,
                 io)
    }

    constructor (e: Env, saveRam: nat)
      ensures Valid() && fresh(wram) && fresh(sram) && fresh(ch) && fresh(state)
      ensures this.e == e && sram.Length == saveRam
      ensures Now().clk == Clock(0, 0, false, None, 0, 0x1FF, 0x1FF, 0, [])
      ensures HubNow().hdmaen == {} && HubNow().ended == {} && HubNow().out == []
      ensures apuBase == 0 && log == [] && fault == None && !nmiFlag && !nmiPending && !pendingCC && !pendingStrobe
    {
      this.e := e;
      wram := new byte[WRAM_SIZE](_ => 0x55);
      sram := new byte[saveRam](_ => 0);
      ch := new DmaChannel[8](_ => DmaChannel(0, 0, 0, 0, 0, 0, 0, 0));
      state := new HdmaState[8](_ => INACTIVE);
      mdr, wmadd, log, fault := 0, 0, [], None;
      mclkFrame, mclkTotal, irqFlag, irqTarget := 0, 0, false, None;
      nmitimen, htime, vtime, line, fired := 0, 0x1FF, 0x1FF, 0, [];
      hdmaen, hdmaEnded, out := {}, {}, [];
      apuBase, pendingCC, pendingStrobe := 0, false, false;
      nmiFlag, nmiPending, fastRom, vblankStart := false, false, false, 225;
      io := POWER_ON_IO;
    }

    // ---- Clock ----

    method NextHTarget() returns (t: Option<nat>)
      ensures t == NextHIrqTarget(ClockNow())
    {
      if htime >= 340 { return None; }
      var nextLine := line + 1;
      if nextLine >= LINES_PER_FRAME { return None; }
      return Some(nextLine * MCLK_PER_LINE + (htime * 4 + 14));
    }

    method AddClocks(n: nat)
      modifies this`mclkFrame, this`mclkTotal, this`irqFlag, this`irqTarget, this`fired
      ensures ClockNow() == AddMclk(old(ClockNow()), n)
    {
      ghost var c := ClockNow();
      var next := NextHTarget();
      var before := mclkFrame;
      mclkFrame := before + n;
      mclkTotal := (mclkTotal + n) % TOTAL_RANGE;
      if irqTarget.Some? && before < irqTarget.value && mclkFrame >= irqTarget.value {
        irqFlag := true;
        fired := fired + [irqTarget.value];
        irqTarget := if Bit(nmitimen, 4) && !Bit(nmitimen, 5) then next else None;
      }
    }

    method RecomputeTarget()
      modifies this`irqTarget
      ensures ClockNow() == RecomputeIrqTarget(old(ClockNow()))
    {
      var h, v := Bit(nmitimen, 4), Bit(nmitimen, 5);
      var next := NextHTarget();
      if (!h && !v) || (h && htime >= 340) || (v && vtime >= LINES_PER_FRAME) {
        irqTarget := None;
      } else if h && !v {
        var candidate := line * MCLK_PER_LINE + (htime * 4 + 14);
        irqTarget := if candidate > mclkFrame then Some(candidate) else next;
      } else {
        var target := vtime * MCLK_PER_LINE + (if h then htime * 4 + 14 else 10);
        irqTarget := if target > mclkFrame then Some(target) else None;
      }
    }

    // ---- Memory and devices ----

    method RaiseFault(f: Fault)
      requires Valid()
      modifies this`fault
      ensures MemNow() == Memory.RaiseFault(old(MemNow()), f)
    {
      if fault.None? { fault := Some(f); }
    }

    method ReadA(bank: byte, off: word) returns (v: byte)
      requires Valid()
      ensures v == ARead(e, MemNow(), bank, off)
    {
      if ARegisterSpace(bank, off) { return mdr; }
      var w := WramIndex(bank, off);
      if w.Some? { return wram[w.value]; }
      if off >= 0x8000 && (bank <= 0x7D || 0x80 <= bank) {
        return e.rom[(bank % 0x80 * 0x8000 + (off - 0x8000)) % |e.rom|];
      }
      if SramWindow(bank, off) && sram.Length > 0 {
        return sram[SramOffset(bank, off, sram.Length)];
      }
      return mdr;
    }

    method WriteA(bank: byte, off: word, v: byte)
      requires Valid()
      modifies this`fault, wram, sram
      ensures MemNow() == AWrite(old(MemNow()), bank, off, v)
    {
      if ARegisterSpace(bank, off) { return; }
      var w := WramIndex(bank, off);
      if w.Some? {
        wram[w.value] := v;
      } else if SramWindow(bank, off) && sram.Length > 0 {
        sram[SramOffset(bank, off, sram.Length)] := v;
      } else {
        RaiseFault(UnmappedWrite(bank, off, v));
      }
    }

    method WritePpu(reg: byte, v: byte)
      requires Valid()
      modifies this`log, this`fault
      ensures MemNow() == PpuWriteReg(e, old(MemNow()), reg, v)
    {
      var f := e.ppuFault(log, reg, v);
      log := log + [PpuWrite(reg, v)];
      if f.Some? { RaiseFault(f.value); }
    }

    method ReadWmdata() returns (v: byte)
      requires Valid()
      modifies this`wmadd, this`mdr
      ensures (v, MemNow()) == WmdataRead(old(MemNow()))
    {
      v := wram[wmadd];
      wmadd := (wmadd + 1) % WRAM_SIZE;
      mdr := v;
    }

    method ReadB(reg: byte) returns (v: byte)
      requires Valid()
      modifies this`wmadd, this`mdr, this`log
      ensures (v, MemNow()) == BRead(e, old(MemNow()), reg)
    {
      v := mdr;
      if 0x34 <= reg <= 0x3F {
        v := e.ppuRead(log, reg, mdr);
        log, mdr := log + [PpuRead(reg)], v;
      } else if 0x40 <= reg <= 0x7F {
        v := e.apuRead(log, reg % 4);
        log, mdr := log + [ApuRead(reg % 4)], v;
      } else if reg == 0x80 {
        v := ReadWmdata();
      }
    }

    method WriteB(reg: byte, v: byte)
      requires Valid()
      modifies this`log, this`fault, this`wmadd, wram
      ensures MemNow() == BWrite(e, old(MemNow()), reg, v)
    {
      if reg <= 0x33 {
        WritePpu(reg, v);
      } else if 0x40 <= reg <= 0x7F {
        log := log + [ApuWrite(reg % 4, v)];
      } else if reg == 0x80 {
        wram[wmadd] := v;
        wmadd := (wmadd + 1) % WRAM_SIZE;
      } else if reg == 0x81 {
        wmadd := SetWmaddLow(wmadd, v);
      } else if reg == 0x82 {
        wmadd := SetWmaddMid(wmadd, v);
      } else if reg == 0x83 {
        wmadd := SetWmaddHigh(wmadd, v);
      }
    }

    // ---- General DMA ----

    /** Moves the byte the channel names; true when the transfer may go on. */
    method MoveDmaByte(i: nat, reg: byte)
      requires Valid() && i < 8
      modifies this`log, this`fault, this`wmadd, this`mdr, wram, sram
      ensures MemNow() == MoveByte(e, old(MemNow()), ch[i], reg)
    {
      var c := ch[i];
      if c.BToA() {
        var v := ReadB(reg);
        WriteA(c.a1b, c.a1t, v);
      } else {
        var v := ReadA(c.a1b, c.a1t);
        WriteB(reg, v);
      }
    }

    /** One byte of a channel; a faulting byte leaves the registers and the clock pointing at it. */
    method StepDma(i: nat, reg: byte) returns (ok: bool)
      requires Valid() && i < 8 && fault.None?
      modifies this`mclkFrame, this`mclkTotal, this`irqFlag, this`irqTarget, this`fired
      modifies this`log, this`fault, this`wmadd, this`mdr, wram, sram, ch
      ensures ch[..] == old(ch[..])[i := ch[i]]
      ensures MemNow() == MoveByte(e, old(MemNow()), old(ch[i]), reg) && ok == fault.None?
      ensures ClockNow() == (if ok then AddMclk(old(ClockNow()), 8) else old(ClockNow()))
      ensures ch[i] == (if ok then StepRegisters(old(ch[i])) else old(ch[i]))
    {
      MoveDmaByte(i, reg);
      if fault.Some? { return false; }
      ch[i] := StepRegisters(ch[i]);
      AddClocks(8);
      return true;
    }

    method RunDmaChannel(i: nat)
      requires Valid() && i < 8
      modifies this`mclkFrame, this`mclkTotal, this`irqFlag, this`irqTarget, this`fired
      modifies this`log, this`fault, this`wmadd, this`mdr, wram, sram, ch
      ensures ch[..] == old(ch[..])[i := ch[i]]
      ensures Transfer(ClockNow(), MemNow(), ch[i])
              == DmaLoop(e, Transfer(old(ClockNow()), old(MemNow()), old(ch[i])), old(ch[i]).Count(), 0)
    {
      hide AddMclk, MoveByte, BReg, UnitPattern;
      ghost var goal := DmaLoop(e, Transfer(ClockNow(), MemNow(), ch[i]), ch[i].Count(), 0);
      ghost var before := ch[..];
      var dmap, bbad := ch[i].dmap, ch[i].bbad;
      var pattern := UnitPattern(dmap);
      var remaining: nat := ch[i].Count();
      var pos := 0;
      while remaining > 0
        invariant 0 <= pos < |pattern|
        invariant ch[..] == before[i := ch[i]] && ch[i].dmap == dmap && ch[i].bbad == bbad
        invariant DmaLoop(e, Transfer(ClockNow(), MemNow(), ch[i]), remaining, pos) == goal
      {
        if fault.Some? { break; }
        assert pos % |pattern| == pos;
        var ok := StepDma(i, BReg(bbad, pattern[pos]));
        if !ok { break; }
        remaining := remaining - 1;
        pos := (pos + 1) % |pattern|;
      }
    }

    method RunDma(mask: set<nat>)
      requires Valid()
      modifies this`mclkFrame, this`mclkTotal, this`irqFlag, this`irqTarget, this`fired
      modifies this`log, this`fault, this`wmadd, this`mdr, wram, sram, ch
      ensures Kick(ClockNow(), MemNow(), ch[..])
              == ExecuteDma(e, Kick(old(ClockNow()), old(MemNow()), old(ch[..])), mask)
    {
      ghost var goal := ExecuteDma(e, Kick(ClockNow(), MemNow(), ch[..]), mask);
      AddClocks(12);
      for i := 0 to 8
        invariant DmaChannels(e, Kick(ClockNow(), MemNow(), ch[..]), mask, i) == goal
      {
        if i in mask {
          AddClocks(8);
          RunDmaChannel(i);
        }
      }
    }

    // ---- HDMA ----

    method LoadHdmaEntry(i: nat)
      requires Valid() && i < 8
      modifies this`hdmaEnded, ch, state
      ensures HubNow() == LoadEntry(e, old(HubNow()), i)
    {
      var c := ch[i];
      var count := ReadA(c.a1b, c.a2a);
      var p := NextWord(c.a2a);
      ch[i] := c.(a2a := p, ntrl := count);
      if count == 0 {
        hdmaEnded := hdmaEnded + {i};
        state[i] := INACTIVE;
        return;
      }
      if c.Indirect() {
        var lo: int := ReadA(c.a1b, p);
        var hi: int := ReadA(c.a1b, NextWord(p));
        ch[i] := ch[i].(a2a := NextWord(NextWord(p)), das := lo + hi * 0x100);
      }
      state[i] := HdmaState(true, true);
    }

    method StartHdma()
      requires Valid()
      modifies this`hdmaEnded, ch, state
      ensures HubNow() == InitHdma(e, old(HubNow()))
    {
      ghost var goal := InitHdma(e, HubNow());
      hdmaEnded := {};
      for i := 0 to 8
        invariant InitChannels(e, HubNow(), i) == goal
      {
        if i !in hdmaen {
          state[i] := INACTIVE;
        } else {
          ch[i] := ch[i].(a2a := ch[i].a1t);
          LoadHdmaEntry(i);
        }
      }
    }

    method SendUnit(i: nat)
      requires Valid() && i < 8
      modifies this`log, this`fault, this`wmadd, this`out, wram, ch
      ensures HubNow() == MoveUnit(e, old(HubNow()), i, 0)
    {
      ghost var goal := MoveUnit(e, HubNow(), i, 0);
      var pattern := UnitPattern(ch[i].dmap);
      for p := 0 to |pattern|
        invariant pattern == UnitPattern(ch[i].dmap)
        invariant MoveUnit(e, HubNow(), i, p) == goal
      {
        SendByte(i, p);
        if fault.Some? { return; }
      }
    }

    method SendByte(i: nat, p: nat)
      requires Valid() && i < 8 && p < |UnitPattern(ch[i].dmap)|
      modifies this`log, this`fault, this`wmadd, this`out, wram, ch
      ensures HubNow() == MoveUnitByte(e, old(HubNow()), i, p)
    {
      var c := ch[i];
      var reg := BReg(c.bbad, UnitPattern(c.dmap)[p]);
      var v;
      if c.Indirect() { v := ReadA(c.dasb, c.das); } else { v := ReadA(c.a1b, c.a2a); }
      WriteB(reg, v);
      ch[i] := if c.Indirect() then c.(das := NextWord(c.das)) else c.(a2a := NextWord(c.a2a));
      out := out + [Sent(i, reg, v)];
    }

    method EndLine(i: nat)
      requires Valid() && i < 8
      modifies this`hdmaEnded, ch, state
      ensures HubNow() == CloseLine(e, old(HubNow()), i)
    {
      var n: byte := (ch[i].ntrl + 0xFF) % 0x100;
      ch[i] := ch[i].(ntrl := n);
      if n % 0x80 == 0 {
        LoadHdmaEntry(i);
      } else {
        state[i] := state[i].(doTransfer := n >= 0x80);
      }
    }

    method RunHdma()
      requires Valid()
      modifies this`log, this`fault, this`wmadd, this`out, this`hdmaEnded, wram, ch, state
      ensures HubNow() == ExecuteHdma(e, old(HubNow()))
    {
      ghost var goal := ExecuteHdma(e, HubNow());
      for i := 0 to 8
        invariant HdmaChannels(e, HubNow(), i) == goal
      {
        if i !in hdmaen || !state[i].active { continue; }
        if fault.Some? { break; }
        ghost var b := HubNow();
        if state[i].doTransfer {
          SendUnit(i);
          if fault.Some? {
            FaultSticks(e, HubNow(), i + 1);
            break;
          }
        }
        EndLine(i);
        assert HubNow() == ServiceChannel(e, b, i);
      }
    }

    // ---- APU catch-up ----

    method Log(ev: DevEvent)
      requires Valid()
      modifies this`log
      ensures Now() == BusOps.Emit(old(Now()), ev)
    {
      log := log + [ev];
    }

    method RecordHalt()
      requires Valid()
      modifies this`fault
      ensures Now() == BusOps.RaiseIf(old(Now()), e.apuHalt(log))
    {
      var halt := e.apuHalt(log);
      if halt.Some? { RaiseFault(halt.value); }
    }

    method CatchUpApu()
      requires Valid()
      modifies this`log, this`fault, this`apuBase
      ensures Now() == BusOps.ApuCatchUp(e, old(Now()))
    {
      if apuBase >= mclkTotal { return; }
      var delta := mclkTotal - apuBase;
      apuBase := mclkTotal;
      Log(ApuAdvance(delta));
      RecordHalt();
    }

    method ServiceCC()
      requires Valid()
      modifies this`log, this`fault, this`pendingCC
      ensures Now() == BusOps.ServicePendingCC(e, old(Now()))
    {
      if !pendingCC { return; }
      pendingCC := false;
      if !e.apuPolling(log) || !e.apuPort0IsCC(log) { return; }
      Log(ApuStep);
      RecordHalt();
    }

    method ReadApuPort(port: byte) returns (v: byte)
      requires Valid()
      modifies this`log, this`fault, this`pendingCC, this`apuBase, this`mdr
      ensures (v, Now()) == BusOps.ApuPortRead(e, old(Now()), port)
    {
      CatchUpApu();
      ServiceCC();
      v := e.apuRead(log, port);
      log, mdr := log + [ApuRead(port)], v;
    }

    method PreparePortWrite(port: byte, v: byte, defer: bool)
      requires Valid() && defer == BusOps.DefersCatchUp(e, Now(), port)
      modifies this`log, this`fault, this`pendingCC, this`apuBase
      ensures Now() == BusOps.BeforePortWrite(e, old(Now()), port, v)
    {
      hide BusOps.ApuCatchUp, BusOps.ServicePendingCC;
      if !defer { CatchUpApu(); }
      if pendingCC && port == 0 && v != 0xCC { ServiceCC(); }
    }

    method SettlePortWrite(port: byte, v: byte)
      requires Valid()
      modifies this`log, this`fault, this`pendingCC
      ensures Now() == BusOps.AfterPortWrite(e, old(Now()), port, v)
    {
      hide BusOps.ServicePendingCC;
      if port == 0 && v == 0xCC && e.apuPolling(log) {
        pendingCC := true;
      } else if pendingCC && port != 0 {
        ServiceCC();
      }
    }

    method FinishPortWrite(port: byte, defer: bool)
      requires Valid()
      modifies this`log, this`fault, this`pendingStrobe, this`apuBase
      ensures Now() == BusOps.EndPortWrite(e, old(Now()), port, defer)
    {
      hide BusOps.ApuCatchUp;
      if defer {
        pendingStrobe := false;
        CatchUpApu();
      }
      if port == 0 && e.apuTransferring(log) {
        pendingStrobe := true;
      }
    }

    method WriteApuPort(port: byte, v: byte)
      requires Valid()
      modifies this`log, this`fault, this`pendingCC, this`pendingStrobe, this`apuBase
      ensures Now() == BusOps.ApuPortWrite(e, old(Now()), port, v)
    {
      hide BusOps.BeforePortWrite, BusOps.AfterPortWrite, BusOps.EndPortWrite;
      var defer := pendingStrobe && port != 0 && e.apuTransferring(log);
      PreparePortWrite(port, v, defer);
      Log(ApuWrite(port, v));
      SettlePortWrite(port, v);
      FinishPortWrite(port, defer);
    }

    // ---- Registers ----

    method SetTimer(off: word, v: byte)
      requires BusOps.IrqRegister(off)
      modifies this`nmitimen, this`htime, this`vtime
      ensures ClockNow() == BusOps.SetTimerRegister(old(ClockNow()), off, v)
    {
      hide BusOps.NineLow, BusOps.NineHigh;
      if off == 0x4200 {
        nmitimen := v;
      } else if off == 0x4207 {
        htime := BusOps.NineLow(htime, v);
      } else if off == 0x4208 {
        htime := BusOps.NineHigh(htime, v);
      } else if off == 0x4209 {
        vtime := BusOps.NineLow(vtime, v);
      } else {
        vtime := BusOps.NineHigh(vtime, v);
      }
    }

    method RaiseNmiEdge(off: word, v: byte)
      requires Valid()
      modifies this`nmiPending
      ensures nmiPending == (old(nmiPending) || BusOps.NmiEdge(old(Now()), off, v))
    {
      hide Bit;
      if off == 0x4200 && Bit(v, 7) && !Bit(nmitimen, 7) && nmiFlag {
        nmiPending := true;
      }
    }

    method SetIrqRegister(off: word, v: byte)
      requires Valid() && BusOps.IrqRegister(off)
      modifies this`nmitimen, this`htime, this`vtime, this`irqTarget, this`nmiPending
      ensures ClockNow() == RecomputeIrqTarget(BusOps.SetTimerRegister(old(ClockNow()), off, v))
      ensures nmiPending == (old(nmiPending) || BusOps.NmiEdge(old(Now()), off, v))
      ensures HubNow() == old(HubNow())
    {
      hide RecomputeIrqTarget, BusOps.NmiEdge, BusOps.SetTimerRegister, BusOps.IrqRegister;
      RaiseNmiEdge(off, v);
      SetTimer(off, v);
      RecomputeTarget();
    }

    method KickDma(mask: set<nat>)
      requires Valid()
      modifies this`mclkFrame, this`mclkTotal, this`irqFlag, this`irqTarget, this`fired
      modifies this`log, this`fault, this`wmadd, this`mdr, wram, sram, ch
      ensures Now() == BusOps.KickDma(e, old(Now()), mask)
    {
      hide ExecuteDma;
      RunDma(mask);
      assert ClockNow() == BusOps.KickDma(e, old(Now()), mask).clk;
      assert HubNow() == BusOps.KickDma(e, old(Now()), mask).hub;
    }

    method SetMdmaen(v: byte)
      requires Valid()
      modifies this`mclkFrame, this`mclkTotal, this`irqFlag, this`irqTarget, this`fired
      modifies this`log, this`fault, this`wmadd, this`mdr, wram, sram, ch
      ensures Now() == BusOps.WriteMdmaen(e, old(Now()), v)
    {
      hide BusOps.KickDma, Channels;
      if v == 0 { return; }
      var mask := Channels(v);
      if mask * hdmaen != {} {
        RaiseFault(HdmaDmaConflict(mask * hdmaen));
      } else {
        KickDma(mask);
      }
    }

    method SetHdmaen(v: byte)
      requires Valid()
      modifies this`hdmaen, state
      ensures Now() == BusOps.WriteHdmaenBus(old(Now()), v)
    {
      ghost var before := state[..];
      var mask := Channels(v);
      var was := hdmaen;
      hdmaen := mask;
      for i := 0 to 8
        invariant hdmaen == mask
        invariant forall k :: i <= k < 8 ==> state[k] == before[k]
        invariant forall k :: 0 <= k < i ==> state[k] == Resumed(before[k], k in mask && k !in was && k !in hdmaEnded)
      {
        if i in mask && i !in was && i !in hdmaEnded {
          state[i] := state[i].(active := true);
        }
      }
      ghost var goal := WriteHdmaen(old(HubNow()), mask);
      assert forall k :: 0 <= k < 8 ==> state[k] == goal.state[k];
      assert state[..] == goal.state;
    }

    // ---- CPU operations ----

    method ReadPpuSpace(reg: byte) returns (v: byte)
      requires Valid()
      modifies this`log, this`mdr
      ensures (v, Now()) == BusOps.ReadPpuSpace(e, old(Now()), reg)
    {
      if reg <= 0x33 { return mdr; }
      if reg == 0x37 { Log(PpuLatch(mclkFrame % MCLK_PER_LINE / 4)); }
      v := e.ppuRead(log, reg, mdr);
      log, mdr := log + [PpuRead(reg)], v;
    }

    method ReadNmiFlag() returns (v: byte)
      requires Valid()
      modifies this`nmiFlag, this`mdr
      ensures (v, Now()) == BusOps.ReadNmiFlag(old(Now()))
    {
      v := (if nmiFlag then 0x80 else 0) + 2 + mdr / 0x10 % 8 * 0x10;
      nmiFlag := false;
      mdr := v;
    }

    method ReadTimeup() returns (v: byte)
      requires Valid()
      modifies this`irqFlag, this`mdr
      ensures (v, Now()) == BusOps.ReadTimeup(old(Now()))
    {
      v := (if irqFlag then 0x80 else 0) + mdr % 0x80;
      irqFlag := false;
      mdr := v;
    }

    method ReadJoypad() returns (bit: byte)
      requires Valid()
      modifies this`io
      ensures (bit, io.joypad) == ReadSerial(old(io.joypad)) && io == old(io).(joypad := io.joypad)
    {
      var j := io.joypad;
      if j.strobe { return j.joy1 / 0x8000; }
      if j.shift >= 16 { return 1; }
      bit := if BitSet(j.joy1, 15 - j.shift) then 1 else 0;
      io := io.(joypad := j.(shift := j.shift + 1));
    }

    method ReadStatus() returns (v: byte)
      requires Valid()
      ensures v == ReadIo(io, 0x4212, mdr, line >= vblankStart, mclkFrame % MCLK_PER_LINE >= HBLANK_START_DOT * 4).0
    {
      v := mdr % 0x40 / 2 * 2;
      if line >= vblankStart { v := v + 0x80; }
      if mclkFrame % MCLK_PER_LINE >= HBLANK_START_DOT * 4 { v := v + 0x40; }
      if io.autoJoyBusy { v := v + 1; }
    }

    method ReadIoRegister(off: word) returns (v: byte)
      requires Valid() && IoReadAddress(off)
      modifies this`io, this`mdr
      ensures (v, Now()) == BusOps.ReadIoRegister(old(Now()), off)
    {
      hide ReadSerial;
      if off == 0x4016 {
        var bit := ReadJoypad();
        v := mdr / 4 * 4 + bit % 2;
      } else if off == 0x4212 {
        v := ReadStatus();
      } else {
        v := ReadResult(off);
      }
      mdr := v;
    }

    /** The registers whose reading changes nothing. */
    method ReadResult(off: word) returns (v: byte)
      requires IoReadAddress(off) && off != 0x4016 && off != 0x4212
      ensures forall vblank, hblank :: ReadIo(io, off, mdr, vblank, hblank) == (v, io)
    {
      if off == 0x4017 { return mdr / 0x20 * 0x20 + 0x1C; }
      if off == 0x4213 { return io.wrio; }
      if off == 0x4214 { return io.rddiv % 0x100; }
      if off == 0x4215 { return io.rddiv / 0x100; }
      if off == 0x4216 { return io.rdmpy % 0x100; }
      if off == 0x4217 { return io.rdmpy / 0x100; }
      if off >= 0x421A { return 0; }
      var joy := if io.autoJoyBusy then io.joyPrev else io.joypad.joy1;
      v := if off == 0x4218 then joy % 0x100 else joy / 0x100;
    }

    method ReadDmaRegister(off: word) returns (v: byte)
      requires Valid() && 0x4300 <= off <= 0x437F
      modifies this`mdr
      ensures (v, Now()) == BusOps.ReadDmaRegister(old(Now()), off)
    {
      hide ReadReg;
      var r := ReadReg(ch[(off - 0x4300) / 0x10], off % 0x10);
      v := if r.Some? then r.value else mdr;
      mdr := v;
    }

    method ReadCart(bank: byte, off: word) returns (v: byte)
      requires Valid()
      modifies this`mdr
      ensures (v, Now()) == BusOps.ReadCart(e, old(Now()), bank, off)
    {
      v := mdr;
      if off >= 0x8000 && (bank <= 0x7D || 0x80 <= bank) {
        v := e.rom[(bank % 0x80 * 0x8000 + (off - 0x8000)) % |e.rom|];
      } else if SramWindow(bank, off) && sram.Length > 0 {
        v := sram[SramOffset(bank, off, sram.Length)];
      }
      mdr := v;
    }

    method ReadRegister(bank: byte, off: word) returns (v: byte)
      requires Valid()
      modifies this`irqFlag, this`nmiFlag, this`log, this`fault, this`pendingCC, this`apuBase, this`mdr, this`wmadd
      modifies this`io
      ensures (v, Now()) == BusOps.ReadSystem(e, old(Now()), bank, off)
    {
      hide BusOps.ReadPpuSpace, BusOps.ApuPortRead, BusOps.ReadNmiFlag, BusOps.ReadTimeup;
      hide BusOps.ReadIoRegister, BusOps.ReadDmaRegister, BusOps.ReadCart;
      if off < 0x2000 {
        v := wram[off];
        mdr := v;
      } else if 0x2100 <= off <= 0x213F {
        v := ReadPpuSpace(off - 0x2100);
      } else if 0x2140 <= off <= 0x217F {
        v := ReadApuPort(off % 4);
      } else if off == 0x2180 {
        v := ReadWmdata();
      } else if off == 0x4210 {
        v := ReadNmiFlag();
      } else if off == 0x4211 {
        v := ReadTimeup();
      } else if IoReadAddress(off) {
        v := ReadIoRegister(off);
      } else if 0x4300 <= off <= 0x437F {
        v := ReadDmaRegister(off);
      } else if off >= 0x8000 {
        v := ReadCart(bank, off);
      } else {
        v := mdr;
      }
    }

    method Tick(n: nat)
      requires Valid()
      modifies this`mclkFrame, this`mclkTotal, this`irqFlag, this`irqTarget, this`fired
      ensures Now() == BusOps.WithClock(old(Now()), AddMclk(old(Now()).clk, n))
    {
      hide AddMclk;
      AddClocks(n);
    }

    method CpuRead(bank: byte, off: word) returns (v: byte)
      requires Valid()
      modifies this`mclkFrame, this`mclkTotal, this`irqFlag, this`irqTarget, this`fired
      modifies this`nmiFlag, this`log, this`fault, this`pendingCC, this`apuBase, this`mdr, this`wmadd, this`io
      ensures (v, Now()) == BusOps.Read(e, old(Now()), bank, off)
    {
      hide AddMclk, MemSpeed, BusOps.ReadSystem, BusOps.ReadCart;
      Tick(MemSpeed(bank, off, fastRom));
      if bank == 0x7E || bank == 0x7F {
        v := wram[(bank - 0x7E) * 0x1_0000 + off];
        mdr := v;
      } else if SystemBank(bank) {
        v := ReadRegister(bank, off);
      } else {
        v := ReadCart(bank, off);
      }
    }

    method WriteTimer(off: word, v: byte)
      requires Valid() && BusOps.IrqRegister(off)
      modifies this`nmitimen, this`htime, this`vtime, this`irqTarget, this`nmiPending
      ensures Now() == BusOps.WriteIrqRegister(old(Now()), off, v)
    {
      hide RecomputeIrqTarget, BusOps.NmiEdge, BusOps.SetTimerRegister;
      SetIrqRegister(off, v);
    }

    method RaiseUnmapped(bank: byte, off: word, v: byte)
      requires Valid()
      modifies this`fault
      ensures Now() == BusOps.Raise(old(Now()), UnmappedWrite(bank, off, v))
    {
      hide Memory.RaiseFault;
      RaiseFault(UnmappedWrite(bank, off, v));
    }

    method SetDmaRegister(off: word, v: byte)
      requires Valid() && 0x4300 <= off <= 0x437F
      modifies ch
      ensures Now() == BusOps.WriteDmaRegister(old(Now()), off, v)
    {
      hide WriteReg;
      var i := (off - 0x4300) / 0x10;
      ch[i] := WriteReg(ch[i], off % 0x10, v);
      assert ch[..] == old(ch[..])[i := ch[i]];
    }

    method WriteControl(bank: byte, off: word, v: byte)
      requires Valid()
      modifies this, wram, sram, ch, state
      ensures Now() == BusOps.WriteControl(e, old(Now()), bank, off, v)
    {
      hide BusOps.WriteIrqRegister, BusOps.WriteMdmaen;
      hide BusOps.WriteHdmaenBus, BusOps.WriteDmaRegister, BusOps.Raise, WriteIo;
      if BusOps.IrqRegister(off) {
        WriteTimer(off, v);
      } else if IoWriteAddress(off) {
        io := WriteIo(io, off, v);
      } else if off == 0x420B {
        SetMdmaen(v);
      } else if off == 0x420C {
        SetHdmaen(v);
      } else if off == 0x420D {
        fastRom := v % 2 == 1;
      } else if 0x4300 <= off <= 0x437F {
        SetDmaRegister(off, v);
      } else {
        RaiseUnmapped(bank, off, v);
      }
    }

    method WriteRegister(bank: byte, off: word, v: byte)
      requires Valid()
      modifies this, wram, sram, ch, state
      ensures Now() == BusOps.WriteSystem(e, old(Now()), bank, off, v)
    {
      hide BWrite, BusOps.ApuPortWrite, PpuWriteReg, BusOps.WriteControl;
      if off < 0x2000 {
        wram[off] := v;
      } else if 0x2100 <= off <= 0x2133 {
        WritePpu(off - 0x2100, v);
      } else if 0x2140 <= off <= 0x217F {
        WriteApuPort(off % 4, v);
      } else if 0x2180 <= off <= 0x2183 {
        WriteB(off - 0x2100, v);
      } else {
        WriteControl(bank, off, v);
      }
    }

    method CpuWrite(bank: byte, off: word, v: byte)
      requires Valid()
      modifies this, wram, sram, ch, state
      ensures Now() == BusOps.Write(e, old(Now()), bank, off, v)
    {
      hide AddMclk, MemSpeed, BusOps.WriteSystem, AWrite;
      Tick(MemSpeed(bank, off, fastRom));
      if SystemBank(bank) {
        WriteRegister(bank, off, v);
      } else {
        WriteA(bank, off, v);
      }
    }

    method CpuIdle()
      requires Valid()
      modifies this`mclkFrame, this`mclkTotal, this`irqFlag, this`irqTarget, this`fired
      ensures Now() == BusOps.Idle(old(Now()))
    {
      hide AddMclk;
      Tick(MCLK_PER_INTERNAL_CYCLE);
    }

    method BeginClockLine(l: nat)
      modifies this`line, this`irqTarget
      ensures ClockNow() == BusOps.LineClock(old(ClockNow()), l)
    {
      line := l;
      if l == 0 { RecomputeTarget(); }
    }

    method BeginLine(l: nat)
      requires Valid()
      modifies this`line, this`irqTarget, this`nmiFlag, this`nmiPending, this`io
      ensures Now() == BusOps.StartLine(old(Now()), l)
    {
      hide Bit, BusOps.LineClock, NativeWord;
      BeginClockLine(l);
      assert HubNow() == old(HubNow());
      RaiseVblank(l);
    }

    method RaiseVblank(l: nat)
      modifies this`nmiFlag, this`nmiPending, this`io
      ensures nmiFlag == (l != 0 && (old(nmiFlag) || l == vblankStart))
      ensures nmiPending == (old(nmiPending) || (l != 0 && l == vblankStart && Bit(nmitimen, 7)))
      ensures io == LineIo(old(io), l, vblankStart, Bit(nmitimen, 0))
    {
      hide Bit, NativeWord;
      if l == 0 {
        nmiFlag := false;
      } else if l == vblankStart {
        nmiFlag := true;
        if Bit(nmitimen, 7) { nmiPending := true; }
        if Bit(nmitimen, 0) {
          io := io.(joyPrev := io.joypad.joy1, joypad := LatchPad(io.joypad), autoJoyBusy := true);
        }
      } else if l == vblankStart + 3 {
        io := io.(autoJoyBusy := false);
      }
    }
  }
}
