/** In what order the sound ports see catch-up, the bytes written to them and a kick that waits to be seen. */
module ApuPorts {
  import opened Timing
  import opened Clock
  import opened Memory
  import opened BusOps

  /** The four ports repeat every four addresses from $2140 to $217F. */
  lemma PortsRepeat(e: Env, b: Bus, bank: byte, off: word, v: byte)
    requires SystemBank(bank) && 0x2140 <= off <= 0x217F
    ensures var b1 := b.(clk := AddMclk(b.clk, 6));
            && Read(e, b, bank, off) == ApuPortRead(e, b1, (off - 0x2140) % 4)
            && Write(e, b, bank, off, v) == ApuPortWrite(e, b1, (off - 0x2140) % 4, v)
  {
    hide AddMclk, ApuPortRead, ApuPortWrite;
  }

  /** The cycles the APU is behind by, as the event that makes them up. */
  function Owed(b: Bus): Log { if b.apuBase < b.clk.total then [ApuAdvance(b.clk.total - b.apuBase)] else [] }

  lemma CatchUpSends(e: Env, b: Bus)
    ensures var r := ApuCatchUp(e, b);
            && r.Mem().log == b.Mem().log + Owed(b) && Owed(r) == [] && r.clk == b.clk
            && r.pendingCC == b.pendingCC && r.pendingStrobe == b.pendingStrobe
  {
    assert b.Mem().log + [] == b.Mem().log;
  }

  /** Catching up faults exactly if the sound CPU halts on the way, and no fault was recorded before. */
  lemma CatchUpFaults(e: Env, b: Bus)
    ensures var r := ApuCatchUp(e, b);
            r.Mem().fault == if b.Faulted() || Owed(b) == [] then b.Mem().fault else e.apuHalt(b.Mem().log + Owed(b))
  {
  }

  /** A write is one of a data byte behind a transfer strobe: it must reach the port before the APU goes on. */
  predicate DataByte(e: Env, b: Bus, port: byte) {
    b.pendingStrobe && port != 0 && e.apuTransferring(b.Mem().log)
  }

  /** Without a waiting kick: the APU catches up before the byte, or after it behind a transfer strobe. */
  lemma PortWriteOrder(e: Env, b: Bus, port: byte, v: byte)
    requires !b.pendingCC && !(port == 0 && v == 0xCC)
    ensures var r := ApuPortWrite(e, b, port, v);
            && r.Mem().log == b.Mem().log + (if DataByte(e, b, port) then [ApuWrite(port, v)] + Owed(b)
                                             else Owed(b) + [ApuWrite(port, v)])
            && !r.pendingCC
            && (r.pendingStrobe <==> (port == 0 && e.apuTransferring(r.Mem().log))
                                     || (b.pendingStrobe && !DataByte(e, b, port)))
  {
    hide ApuCatchUp;
    CatchUpSends(e, b);
    var l := b.Mem().log;
    var b1 := Emit(b, ApuWrite(port, v));
    CatchUpSends(e, b1.(pendingStrobe := false));
    assert (l + Owed(b)) + [ApuWrite(port, v)] == l + (Owed(b) + [ApuWrite(port, v)]);
    assert (l + [ApuWrite(port, v)]) + Owed(b) == l + ([ApuWrite(port, v)] + Owed(b));
  }

  /** A read without a waiting kick: the APU catches up, and its port answers. */
  lemma PortReadOrder(e: Env, b: Bus, port: byte)
    requires !b.pendingCC
    ensures var (v, r) := ApuPortRead(e, b, port);
            && v == e.apuRead(b.Mem().log + Owed(b), port)
            && r.Mem().log == b.Mem().log + Owed(b) + [ApuRead(port)]
            && !r.pendingCC && r.pendingStrobe == b.pendingStrobe
  {
    hide ApuCatchUp;
    CatchUpSends(e, b);
  }

  /** A kick is kept waiting exactly when the boot program is polling for it. */
  lemma KickWaits(e: Env, b: Bus)
    requires !b.pendingCC
    ensures var l := b.Mem().log + Owed(b) + [ApuWrite(0, 0xCC)];
            var r := ApuPortWrite(e, b, 0, 0xCC);
            r.Mem().log == l && (r.pendingCC <==> e.apuPolling(l))
  {
    hide ApuCatchUp;
    CatchUpSends(e, b);
  }

  /** The boot program would see the kick. */
  predicate Sees(e: Env, log: Log) { e.apuPolling(log) && e.apuPort0IsCC(log) }

  function Serviced(e: Env, log: Log): Log { if Sees(e, log) then log + [ApuStep] else log }

  lemma ServiceSends(e: Env, b: Bus)
    requires b.pendingCC
    ensures ServicePendingCC(e, b).Mem().log == Serviced(e, b.Mem().log) && !ServicePendingCC(e, b).pendingCC
    ensures Owed(ServicePendingCC(e, b)) == Owed(b) && ServicePendingCC(e, b).pendingStrobe == b.pendingStrobe
    ensures ServicePendingCC(e, b).Mem().fault
            == if b.Faulted() || !Sees(e, b.Mem().log) then b.Mem().fault else e.apuHalt(b.Mem().log + [ApuStep])
  {
  }

  /**
   A waiting kick is not lost: before another value replaces it, before the port is read, and right
   after a byte for another port, the boot program takes one step with it if it would see it.
   */
  lemma KickSeen(e: Env, b: Bus, port: byte, v: byte)
    requires b.pendingCC
    ensures v != 0xCC ==>
              var r := ApuPortWrite(e, b, 0, v);
              r.Mem().log == Serviced(e, b.Mem().log + Owed(b)) + [ApuWrite(0, v)] && !r.pendingCC
    ensures ApuPortRead(e, b, port).0 == e.apuRead(Serviced(e, b.Mem().log + Owed(b)), port)
    ensures ApuPortRead(e, b, port).1.Mem().log == Serviced(e, b.Mem().log + Owed(b)) + [ApuRead(port)]
            && !ApuPortRead(e, b, port).1.pendingCC
    ensures port != 0 && !DataByte(e, b, port) ==>
              var r := ApuPortWrite(e, b, port, v);
              r.Mem().log == Serviced(e, b.Mem().log + Owed(b) + [ApuWrite(port, v)]) && !r.pendingCC
  {
    hide ApuCatchUp, ServicePendingCC;
    CatchUpSends(e, b);
    var b1 := ApuCatchUp(e, b);
    ServiceSends(e, b1);
    ServiceSends(e, Emit(b1, ApuWrite(port, v)));
  }
}
