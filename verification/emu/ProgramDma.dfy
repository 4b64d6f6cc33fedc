/** A DMA kick as the program makes it: one write to $420B. */
module ProgramDma {
  import opened Timing
  import opened Clock
  import opened Memory
  import opened Dma
  import opened DmaResults
  import opened Hdma
  import opened BusOps
  import opened BusTime
  import opened CpuPorts
  import opened Delivery

  /** The kick a write of `v` makes starts from the bus as it stands, the write's own access time passed. */
  lemma ProgramKick(e: Env, b: Bus, bank: byte, v: byte)
    requires SystemBank(bank) && Named(v) != {} && Named(v) * b.hub.hdmaen == {}
    ensures var x := ExecuteDma(e, Kick(AddMclk(b.clk, 6), b.Mem(), b.hub.ch), Named(v));
            Write(e, b, bank, 0x420B, v) == b.(clk := x.clk, hub := b.hub.(mem := x.mem, ch := x.ch))
  {
    hide ExecuteDma, Named, AddMclk, Write;
    KickGuarded(e, b, bank, v);
  }

  /**
   A program's upload: with every named channel aimed at devices and no fault, byte `f` of channel `j`
   arrives at its register with what its own address held before the write; HDMA and memory stay as they
   were, and the channel ends with DAS 0 and its address past the bytes moved.
   */
  lemma ProgramUpload(e: Env, b: Bus, bank: byte, v: byte, j: nat, f: nat)
    requires SystemBank(bank) && !b.Faulted() && Named(v) * b.hub.hdmaen == {}
    requires forall i :: 0 <= i < 8 && i in Named(v) ==> ToDevices(b.hub.ch[i])
    requires j in Named(v) && f < Length(b.hub.ch[j]) && !Write(e, b, bank, 0x420B, v).Faulted()
    ensures var (c, r, at) := (b.hub.ch[j], Write(e, b, bank, 0x420B, v),
                               |b.Mem().log| + Earlier(b.hub.ch, Named(v), j) + f);
            && |r.Mem().log| == |b.Mem().log| + Earlier(b.hub.ch, Named(v), 8) && at < |r.Mem().log|
            && r.Mem().log[at] == Arrival(Register(c, f), ARead(e, b.Mem(), c.a1b, SourceOffset(c, f)))
            && r.Mem() == b.Mem().(log := r.Mem().log)
            && r.hub == b.hub.(mem := r.Mem(), ch := r.hub.ch)
            && r.hub.ch[j] == c.(das := 0, a1t := SourceOffset(c, Length(c)))
  {
    hide ExecuteDma, Named, AddMclk, Write, ARead, ToDevices, Register, SourceOffset, AimsAtDevice, KickPlan, Events;
    hide AOffset;
    ProgramKick(e, b, bank, v);
    var k := Kick(AddMclk(b.clk, 6), b.Mem(), b.hub.ch);
    NamedBelow(v, j);
    DeliveredByte(e, k, Named(v), j, f);
    forall i | 0 <= i < 8 && i in Named(v) ensures AimsAtDevice(k.ch[i]) { ToDevicesAims(k.ch[i]); }
    KickDelivers(e, k, Named(v));
    FaultFreeKick(e, k, Named(v), j);
    MovedPast(k.ch[j]);
  }

  lemma NamedBelow(v: byte, j: nat)
    requires j in Named(v)
    ensures j < 8
  {
  }

  lemma MovedPast(c: DmaChannel)
    ensures AOffset(c, c.Count()) == SourceOffset(c, Length(c))
  {
  }
}
