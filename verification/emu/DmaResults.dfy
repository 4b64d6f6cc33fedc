/** What a general DMA kick leaves behind: the register file, and the bytes that arrived. */
module DmaResults {
  import opened Timing
  import opened Clock
  import opened Memory
  import opened Dma

  function Min(a: nat, b: nat): nat { if a <= b then a else b }
  function Less(a: nat, b: nat): nat { if a <= b then 0 else a - b }

  /** Moves planned for channels `i..j`. */
  function Before(ch: Channels8, mask: set<nat>, i: nat, j: nat): nat
    requires i <= j <= 8
    decreases j - i, mask
  {
    if i == j then 0 else (if i in mask then ch[i].Count() else 0) + Before(ch, mask, i + 1, j)
  }

  lemma {:induction false} BeforeLocal(a: Channels8, b: Channels8, mask: set<nat>, i: nat, j: nat)
    requires i <= j <= 8 && forall k :: i <= k < j ==> a[k] == b[k]
    ensures Before(a, mask, i, j) == Before(b, mask, i, j)
    decreases j - i
  {
    if i < j {
      BeforeLocal(a, b, mask, i + 1, j);
    }
  }

  /**
   The register file after `done` moves: an enabled channel has advanced by its own share, which is
   none until the channels before it are finished; a channel not in the mask is untouched.
   */
  lemma {:induction false} RegistersAfter(ch: Channels8, mask: set<nat>, i: nat, j: nat, done: nat)
    requires i <= j < 8
    ensures MovedAll(ch, mask, i, done)[j]
            == if j in mask then Moved(ch[j], Min(Less(done, Before(ch, mask, i, j)), ch[j].Count())) else ch[j]
    decreases 8 - i
  {
    hide Moved;
    if i in mask {
      var share := Min(done, ch[i].Count());
      var ch1 := ch[i := Moved(ch[i], share)];
      if i < j {
        RegistersAfter(ch1, mask, i + 1, j, done - share);
        BeforeLocal(ch, ch1, mask, i + 1, j);
      } else {
        MovedAllBelow(ch1, mask, i + 1, j, done - share);
      }
    } else if i < j {
      RegistersAfter(ch, mask, i + 1, j, done);
    } else {
      MovedAllBelow(ch, mask, i + 1, j, done);
    }
  }

  lemma {:induction false} KickPlanLength(ch: Channels8, mask: set<nat>, i: nat)
    requires i <= 8
    ensures |KickPlan(ch, mask, i)| == Before(ch, mask, i, 8)
    decreases 8 - i
  {
    if i < 8 {
      KickPlanLength(ch, mask, i + 1);
    }
  }

  lemma {:induction false} BeforeSplit(ch: Channels8, mask: set<nat>, i: nat, j: nat)
    requires i <= j < 8
    ensures Before(ch, mask, i, 8) >= Before(ch, mask, i, j) + (if j in mask then ch[j].Count() else 0)
    decreases j - i
  {
    if i < j {
      BeforeSplit(ch, mask, i + 1, j);
    }
  }

  /** A fault-free kick completes its plan: every enabled channel ends with DAS = 0. */
  lemma FaultFreeKick(e: Env, k: Kick, mask: set<nat>, j: nat)
    requires j < 8 && ExecuteDma(e, k, mask).mem.fault.None?
    ensures PerformAll(e, k.mem, KickPlan(k.ch, mask, 0)) == (ExecuteDma(e, k, mask).mem, Before(k.ch, mask, 0, 8))
    ensures var c, d := k.ch[j], ExecuteDma(e, k, mask).ch[j];
            d == if j in mask then c.(das := 0, a1t := AOffset(c, c.Count())) else c
  {
    hide ExecuteDma, KickPlan, AOffset, Observable, AddMclk, PerformAll;
    ExecuteDmaExact(e, k, mask);
    KickPlanLength(k.ch, mask, 0);
    BeforeSplit(k.ch, mask, 0, j);
    RegistersAfter(k.ch, mask, 0, j, Before(k.ch, mask, 0, 8));
  }

  /** With the kick stopped at byte `f` of channel `j`, where the registers are. */
  lemma StoppedAt(e: Env, k: Kick, mask: set<nat>, j: nat, f: nat)
    requires j < 8 && j in mask && f < k.ch[j].Count()
    requires PerformAll(e, k.mem, KickPlan(k.ch, mask, 0)).1 == Before(k.ch, mask, 0, j) + f
    ensures var r := ExecuteDma(e, k, mask);
            && r.ch[j].a1t == MoveAt(k.ch[j], f).off
            && r.ch[j].das == (k.ch[j].Count() - f) % 0x1_0000
            && forall i :: j < i < 8 ==> r.ch[i] == k.ch[i]
  {
    hide ExecuteDma, KickPlan, AOffset, Observable, AddMclk, PerformAll;
    ExecuteDmaExact(e, k, mask);
    var done := Before(k.ch, mask, 0, j) + f;
    RegistersAfter(k.ch, mask, 0, j, done);
    forall i | j < i < 8 ensures ExecuteDma(e, k, mask).ch[i] == k.ch[i] {
      RegistersAfter(k.ch, mask, 0, i, done);
      BeforeMonotone(k.ch, mask, 0, j, i);
      MovedNone(k.ch[i]);
    }
  }

  lemma {:induction false} BeforeMonotone(ch: Channels8, mask: set<nat>, i: nat, j: nat, k: nat)
    requires i <= j < k < 8
    ensures Before(ch, mask, i, k) >= Before(ch, mask, i, j) + (if j in mask then ch[j].Count() else 0)
    decreases j - i
  {
    if i < j {
      BeforeMonotone(ch, mask, i + 1, j, k);
    }
  }

  /** Moves that turn a clean memory into a faulted one did not all complete. */
  lemma {:induction false} FaultStopsShort(e: Env, m: Mem, moves: seq<Move>)
    requires m.fault.None? && PerformAll(e, m, moves).0.fault.Some?
    ensures PerformAll(e, m, moves).1 < |moves|
    decreases moves
  {
    hide Perform;
    if moves != [] && Perform(e, m, moves[0]).fault.None? {
      FaultStopsShort(e, Perform(e, m, moves[0]), moves[1..]);
    }
  }

  /** Move `done` of the plan is byte `f` of channel `j`. */
  lemma {:induction false} MoveOfPlan(ch: Channels8, mask: set<nat>, i: nat, done: nat) returns (j: nat, f: nat)
    requires i <= 8 && done < Before(ch, mask, i, 8)
    ensures i <= j < 8 && j in mask && f < ch[j].Count() && done == Before(ch, mask, i, j) + f
    ensures done < |KickPlan(ch, mask, i)| && KickPlan(ch, mask, i)[done] == MoveAt(ch[j], f)
    decreases 8 - i
  {
    hide MoveAt;
    KickPlanLength(ch, mask, i);
    if i in mask && done < ch[i].Count() {
      j, f := i, done;
      assert KickPlan(ch, mask, i)[done] == Plan(ch[i])[done];
    } else {
      var own := if i in mask then ch[i].Count() else 0;
      j, f := MoveOfPlan(ch, mask, i + 1, done - own);
      assert KickPlan(ch, mask, i)[done] == KickPlan(ch, mask, i + 1)[done - own];
    }
  }

  /**
   A kick that starts clean and ends in a fault stopped at one byte `f` of one channel `j`, and it is
   that byte's move that faulted: the channel's A1T and DAS name the byte, every enabled channel
   before it is finished, and no later one has moved.
   */
  lemma FaultedKick(e: Env, k: Kick, mask: set<nat>) returns (j: nat, f: nat)
    requires k.mem.fault.None? && ExecuteDma(e, k, mask).mem.fault.Some?
    ensures j < 8 && j in mask && f < k.ch[j].Count()
    ensures var (m, done) := PerformAll(e, k.mem, KickPlan(k.ch, mask, 0));
            && ExecuteDma(e, k, mask).mem == m
            && done == Before(k.ch, mask, 0, j) + f < |KickPlan(k.ch, mask, 0)|
            && KickPlan(k.ch, mask, 0)[done] == MoveAt(k.ch[j], f)
    ensures var r := ExecuteDma(e, k, mask);
            && r.ch[j].a1t == MoveAt(k.ch[j], f).off
            && r.ch[j].das == (k.ch[j].Count() - f) % 0x1_0000
            && (forall i :: 0 <= i < j && i in mask ==> r.ch[i].das == 0)
            && forall i :: j < i < 8 ==> r.ch[i] == k.ch[i]
  {
    hide ExecuteDma, KickPlan, AOffset, Observable, AddMclk, PerformAll, MoveAt;
    ExecuteDmaExact(e, k, mask);
    FaultStopsShort(e, k.mem, KickPlan(k.ch, mask, 0));
    KickPlanLength(k.ch, mask, 0);
    var done := PerformAll(e, k.mem, KickPlan(k.ch, mask, 0)).1;
    j, f := MoveOfPlan(k.ch, mask, 0, done);
    StoppedAt(e, k, mask, j, f);
    forall i | 0 <= i < j && i in mask ensures ExecuteDma(e, k, mask).ch[i].das == 0 {
      FinishedBefore(k.ch, mask, i, j, done);
    }
  }

  lemma FinishedBefore(ch: Channels8, mask: set<nat>, i: nat, j: nat, done: nat)
    requires i < j < 8 && i in mask && done >= Before(ch, mask, 0, j)
    ensures MovedAll(ch, mask, 0, done)[i].das == 0
  {
    hide MovedAll, AOffset;
    BeforeMonotone(ch, mask, 0, i, j);
    RegistersAfter(ch, mask, 0, i, done);
  }

  // ---- The bytes that arrive, when they do not feed back into the source ----

  /** The device event of one A-to-B move, its byte read from `m`. */
  function Event(e: Env, m: Mem, mv: Move): DevEvent {
    var v := ARead(e, m, mv.bank, mv.off);
    if mv.reg <= 0x33 then PpuWrite(mv.reg, v) else ApuWrite(mv.reg % 4, v)
  }

  predicate ToDevice(mv: Move) { !mv.toA && (mv.reg <= 0x33 || 0x40 <= mv.reg <= 0x7F) }

  lemma ToDeviceStep(e: Env, m: Mem, mv: Move)
    requires ToDevice(mv) && m.fault.None? && Perform(e, m, mv).fault.None?
    ensures Perform(e, m, mv) == m.(log := m.log + [Event(e, m, mv)])
  {
  }

  /** The events of a list of moves, their bytes read from `m`. */
  function Events(e: Env, m: Mem, moves: seq<Move>): (log: Log)
    ensures |log| == |moves|
  {
    seq(|moves|, i requires 0 <= i < |moves| => Event(e, m, moves[i]))
  }

  /** The first event, then the rest, read from a memory with any other log. */
  lemma EventsHead(e: Env, m: Mem, log: Log, moves: seq<Move>)
    requires moves != []
    ensures Events(e, m, moves) == [Event(e, m, moves[0])] + Events(e, m.(log := log), moves[1..])
  {
    hide ARead;
    forall i | 0 <= i < |moves| - 1
      ensures Events(e, m, moves)[i + 1] == Events(e, m.(log := log), moves[1..])[i]
    {
      LogKeepsABus(e, m, log, moves[i + 1].bank, moves[i + 1].off);
    }
  }

  lemma LogJoin(log: Log, ev: DevEvent, rest: Log)
    ensures log + [ev] + rest == log + ([ev] + rest) && log + [] == log
  {
  }

  /** A fault-free transfer to a device delivers, in order, the bytes the source held at the kick. */
  lemma {:induction false} DeviceReceivesSource(e: Env, m: Mem, moves: seq<Move>)
    requires forall mv :: mv in moves ==> ToDevice(mv)
    requires m.fault.None? && PerformAll(e, m, moves).0.fault.None?
    ensures PerformAll(e, m, moves).0 == m.(log := m.log + Events(e, m, moves))
    decreases moves
  {
    hide Perform, ToDevice, Event, Events;
    if moves == [] {
      assert m.log + Events(e, m, moves) == m.log;
    } else {
      var m1 := Perform(e, m, moves[0]);
      ToDeviceStep(e, m, moves[0]);
      DeviceReceivesSource(e, m1, moves[1..]);
      EventsHead(e, m, m1.log, moves);
      LogJoin(m.log, Event(e, m, moves[0]), Events(e, m1, moves[1..]));
    }
  }

  lemma LogKeepsABus(e: Env, m: Mem, log: Log, bank: byte, off: word)
    ensures ARead(e, m.(log := log), bank, off) == ARead(e, m, bank, off)
  {
  }

  /** The work-RAM cell that byte `i` of a WRAM-port transfer lands in. */
  function Cell(a: WramAddr, i: nat): WramAddr { (a + i) % WRAM_SIZE }

  predicate ToWramPort(mv: Move) { !mv.toA && mv.reg == 0x80 }

  /** The source address is none of the next `n` cells the WRAM port writes. */
  predicate OutsideWindow(mv: Move, a: WramAddr, n: nat) {
    var w := WramIndex(mv.bank, mv.off);
    ARegisterSpace(mv.bank, mv.off) || w.None? || forall i :: 0 <= i < n ==> w.value != Cell(a, i)
  }

  lemma WmdataKeepsSource(e: Env, m: Mem, v: byte, mv: Move)
    requires OutsideWindow(mv, m.wmadd, 1)
    ensures ARead(e, WmdataWrite(m, v), mv.bank, mv.off) == ARead(e, m, mv.bank, mv.off)
  {
    assert Cell(m.wmadd, 0) == m.wmadd;
  }

  lemma CellNext(a: WramAddr, i: nat)
    ensures Cell(Cell(a, 1), i) == Cell(a, i + 1)
  {
  }

  lemma CellDistinct(a: WramAddr, i: nat)
    requires 0 < i < WRAM_SIZE
    ensures Cell(a, i) != a
  {
  }

  /** A copy through the WRAM port that does not overwrite its own source copies the source. */
  lemma {:induction false} WramPortCopies(e: Env, m: Mem, moves: seq<Move>, i: nat)
    requires |moves| <= WRAM_SIZE && m.fault.None?
    requires forall mv :: mv in moves ==> ToWramPort(mv) && OutsideWindow(mv, m.wmadd, |moves|)
    ensures var (r, done) := PerformAll(e, m, moves);
            && done == |moves| && r.fault.None? && r.wmadd == Cell(m.wmadd, |moves|)
            && (i < |moves| ==> r.wram[Cell(m.wmadd, i)] == ARead(e, m, moves[i].bank, moves[i].off))
            && forall a: WramAddr :: (forall k :: 0 <= k < |moves| ==> a != Cell(m.wmadd, k)) ==> r.wram[a] == m.wram[a]
    decreases moves
  {
    if moves != [] {
      hide ARead, Cell, OutsideWindow;
      var m1 := Perform(e, m, moves[0]);
      var v := ARead(e, m, moves[0].bank, moves[0].off);
      assert ToWramPort(moves[0]) by { assert moves[0] in moves; }
      assert m1 == WmdataWrite(m, v);
      CellZero(m.wmadd);
      assert m1.wmadd == Cell(m.wmadd, 1) by { CellOne(m.wmadd); }
      var rest := moves[1..];
      forall mv | mv in rest ensures ToWramPort(mv) && OutsideWindow(mv, m1.wmadd, |rest|) {
        WindowTail(mv, m.wmadd, |moves|);
      }
      WramPortCopies(e, m1, rest, Less(i, 1));
      forall k: nat ensures Cell(m1.wmadd, k) == Cell(m.wmadd, k + 1) { CellNext(m.wmadd, k); }
      if 0 < i < |moves| {
        assert OutsideWindow(moves[i], m.wmadd, |moves|);
        WindowHead(moves[i], m.wmadd, |moves|);
        WmdataKeepsSource(e, m, v, moves[i]);
      } else if i == 0 {
        forall k | 0 <= k < |rest| ensures m.wmadd != Cell(m1.wmadd, k) { CellDistinct(m.wmadd, k + 1); }
      }
      forall a: WramAddr | forall k :: 0 <= k < |moves| ==> a != Cell(m.wmadd, k)
        ensures PerformAll(e, m, moves).0.wram[a] == m.wram[a]
      {
        assert a != Cell(m.wmadd, 0);
        forall k | 0 <= k < |rest| ensures a != Cell(m1.wmadd, k) { assert a != Cell(m.wmadd, k + 1); }
      }
    } else {
      CellZero(m.wmadd);
    }
  }

  lemma CellZero(a: WramAddr)
    ensures Cell(a, 0) == a
  {
  }

  lemma CellOne(a: WramAddr)
    ensures Cell(a, 1) == (a + 1) % WRAM_SIZE
  {
  }

  lemma WindowTail(mv: Move, a: WramAddr, n: nat)
    requires 0 < n && OutsideWindow(mv, a, n)
    ensures OutsideWindow(mv, Cell(a, 1), n - 1)
  {
    forall i | 0 <= i < n - 1 ensures Cell(Cell(a, 1), i) == Cell(a, i + 1) { CellNext(a, i); }
  }

  lemma WindowHead(mv: Move, a: WramAddr, n: nat)
    requires 0 < n && OutsideWindow(mv, a, n)
    ensures OutsideWindow(mv, a, 1)
  {
  }

  // ---- Kicks whose registers aim every byte at a device, or at the WRAM port ----

  /** BBAD and DMAP: every byte goes to the picture or the sound chip. */
  predicate AimsAtDevice(c: DmaChannel) {
    !c.BToA() && forall p :: 0 <= p < |UnitPattern(c.dmap)| ==>
      var reg := BReg(c.bbad, UnitPattern(c.dmap)[p]); reg <= 0x33 || 0x40 <= reg <= 0x7F
  }

  lemma AimedMoves(ch: Channels8, mask: set<nat>)
    requires forall i :: 0 <= i < 8 && i in mask ==> AimsAtDevice(ch[i])
    ensures forall mv :: mv in KickPlan(ch, mask, 0) ==> ToDevice(mv)
  {
    hide KickPlan;
    KickPlanLength(ch, mask, 0);
    forall mv | mv in KickPlan(ch, mask, 0) ensures ToDevice(mv) {
      var at :| 0 <= at < |KickPlan(ch, mask, 0)| && KickPlan(ch, mask, 0)[at] == mv;
      var j, f := MoveOfPlan(ch, mask, 0, at);
      assert AimsAtDevice(ch[j]) && 0 <= f % |UnitPattern(ch[j].dmap)| < |UnitPattern(ch[j].dmap)|;
    }
  }

  /**
   A fault-free kick of channels aimed at a device changes no memory: it appends to the log, channel
   by channel and byte by byte, the bytes the A bus held at the kick.
   */
  lemma KickDelivers(e: Env, k: Kick, mask: set<nat>)
    requires forall i :: 0 <= i < 8 && i in mask ==> AimsAtDevice(k.ch[i])
    requires k.mem.fault.None? && ExecuteDma(e, k, mask).mem.fault.None?
    ensures var plan := KickPlan(k.ch, mask, 0);
            && |plan| == Before(k.ch, mask, 0, 8)
            && ExecuteDma(e, k, mask).mem
               == k.mem.(log := k.mem.log + Events(e, k.mem, plan))
  {
    hide ExecuteDma, KickPlan, PerformAll, AimsAtDevice, Event, MovedAll, Observable, AddMclk;
    ExecuteDmaExact(e, k, mask);
    KickPlanLength(k.ch, mask, 0);
    AimedMoves(k.ch, mask);
    DeviceReceivesSource(e, k.mem, KickPlan(k.ch, mask, 0));
  }

  /** BBAD and DMAP: every byte goes through the WRAM port. */
  predicate AimsAtWramPort(c: DmaChannel) {
    !c.BToA() && forall p :: 0 <= p < |UnitPattern(c.dmap)| ==> BReg(c.bbad, UnitPattern(c.dmap)[p]) == 0x80
  }

  /** A1B, A1T, DAS and DMAP: no source byte of the channel is one of the `n` cells from `a` on. */
  predicate SourceOutside(c: DmaChannel, a: WramAddr, n: nat) {
    forall f :: 0 <= f < c.Count() ==> OutsideWindow(MoveAt(c, f), a, n)
  }

  lemma AimedAtPort(ch: Channels8, mask: set<nat>, a: WramAddr)
    requires forall i :: 0 <= i < 8 && i in mask ==>
               AimsAtWramPort(ch[i]) && SourceOutside(ch[i], a, Before(ch, mask, 0, 8))
    ensures forall mv :: mv in KickPlan(ch, mask, 0) ==>
              ToWramPort(mv) && OutsideWindow(mv, a, |KickPlan(ch, mask, 0)|)
  {
    hide KickPlan, OutsideWindow;
    KickPlanLength(ch, mask, 0);
    forall mv | mv in KickPlan(ch, mask, 0) ensures ToWramPort(mv) && OutsideWindow(mv, a, |KickPlan(ch, mask, 0)|) {
      var at :| 0 <= at < |KickPlan(ch, mask, 0)| && KickPlan(ch, mask, 0)[at] == mv;
      var j, f := MoveOfPlan(ch, mask, 0, at);
      assert AimsAtWramPort(ch[j]) && 0 <= f % |UnitPattern(ch[j].dmap)| < |UnitPattern(ch[j].dmap)|;
      assert SourceOutside(ch[j], a, Before(ch, mask, 0, 8));
    }
  }

  /**
   A kick of channels aimed at the WRAM port, whose sources lie outside the cells it will write,
   cannot fault: from WMADD on, wrapping at 128 KiB, work RAM holds the source bytes in order, every
   other cell is as before, and WMADD has moved by the number of bytes.
   */
  lemma KickCopies(e: Env, k: Kick, mask: set<nat>, i: nat)
    requires var n := Before(k.ch, mask, 0, 8);
             && n <= WRAM_SIZE && i < n
             && forall j :: 0 <= j < 8 && j in mask ==>
                  AimsAtWramPort(k.ch[j]) && SourceOutside(k.ch[j], k.mem.wmadd, n)
    requires k.mem.fault.None?
    ensures var n := Before(k.ch, mask, 0, 8);
            var plan := KickPlan(k.ch, mask, 0);
            var r := ExecuteDma(e, k, mask).mem;
            && |plan| == n && r.fault.None? && r.wmadd == Cell(k.mem.wmadd, n)
            && r.wram[Cell(k.mem.wmadd, i)] == ARead(e, k.mem, plan[i].bank, plan[i].off)
            && forall a: WramAddr :: (forall p :: 0 <= p < n ==> a != Cell(k.mem.wmadd, p)) ==>
               r.wram[a] == k.mem.wram[a]
  {
    hide ExecuteDma, KickPlan, PerformAll, AimsAtWramPort, SourceOutside, OutsideWindow, Cell, ARead;
    hide MovedAll, Observable, AddMclk;
    ExecuteDmaExact(e, k, mask);
    KickPlanLength(k.ch, mask, 0);
    AimedAtPort(k.ch, mask, k.mem.wmadd);
    WramPortCopies(e, k.mem, KickPlan(k.ch, mask, 0), i);
  }

  /** The common source: upwards within one work-RAM bank, apart from a window that does not wrap. */
  lemma ApartInWram(c: DmaChannel, a: WramAddr, n: nat)
    requires c.a1b == 0x7E || c.a1b == 0x7F
    requires !c.Fixed() && !c.Decrement() && c.a1t + c.Count() <= 0x1_0000 && a + n <= WRAM_SIZE
    requires var s := (c.a1b - 0x7E) * 0x1_0000 + c.a1t; s + c.Count() <= a || a + n <= s
    ensures SourceOutside(c, a, n)
  {
    forall f | 0 <= f < c.Count() ensures OutsideWindow(MoveAt(c, f), a, n) {
      UpwardsInBank(c, f);
      CellsInOrder(a, n);
    }
  }

  lemma UpwardsInBank(c: DmaChannel, f: nat)
    requires !c.Fixed() && !c.Decrement() && c.a1t + f < 0x1_0000
    ensures MoveAt(c, f).off == c.a1t + f && MoveAt(c, f).bank == c.a1b
  {
  }

  lemma CellsInOrder(a: WramAddr, n: nat)
    requires a + n <= WRAM_SIZE
    ensures forall i :: 0 <= i < n ==> Cell(a, i) == a + i
  {
  }

  /** Banks none of whose addresses are work RAM: cartridge only. */
  predicate CartridgeBank(bank: byte) { 0x40 <= bank <= 0x7D || 0xC0 <= bank }

  lemma ApartInCartridge(c: DmaChannel, a: WramAddr, n: nat)
    requires CartridgeBank(c.a1b)
    ensures SourceOutside(c, a, n)
  {
  }

  /** From the cartridge banks there is nothing to keep apart: up to 128 KiB always arrive as they stand there. */
  lemma CartridgeKickCopies(e: Env, k: Kick, mask: set<nat>, i: nat)
    requires forall j :: 0 <= j < 8 && j in mask ==> AimsAtWramPort(k.ch[j]) && CartridgeBank(k.ch[j].a1b)
    requires i < Before(k.ch, mask, 0, 8) <= WRAM_SIZE && k.mem.fault.None?
    ensures var n := Before(k.ch, mask, 0, 8);
            var plan := KickPlan(k.ch, mask, 0);
            var r := ExecuteDma(e, k, mask).mem;
            && |plan| == n && r.fault.None? && r.wmadd == Cell(k.mem.wmadd, n)
            && r.wram[Cell(k.mem.wmadd, i)] == ARead(e, k.mem, plan[i].bank, plan[i].off)
  {
    hide ExecuteDma, KickPlan, AimsAtWramPort, SourceOutside, Cell, ARead;
    forall j | 0 <= j < 8 && j in mask
      ensures SourceOutside(k.ch[j], k.mem.wmadd, Before(k.ch, mask, 0, 8))
    {
      ApartInCartridge(k.ch[j], k.mem.wmadd, Before(k.ch, mask, 0, 8));
    }
    KickCopies(e, k, mask, i);
  }
}
