/**
 HDMA over a frame as the scheduler runs it: the CPU executes any program that leaves one channel's
 registers alone, and that channel sends one line of its table per visible line with its bit set.
 */
module HdmaFrame {
  import opened Timing
  import opened Clock
  import opened Memory
  import opened Dma
  import opened DmaResults
  import opened Hdma
  import opened HdmaTable
  import opened HdmaTrace
  import opened IoUnit
  import opened BusOps
  import opened BusTime
  import opened Frame

  // ---- A program that leaves channel `j` alone ----

  /** No write to $43j0-$43jF and no $420B kick of the channel; $420C may be written. */
  predicate SparesChannel(op: BusOp, j: nat) {
    op.OpWrite? && SystemBank(op.bank) ==>
      && !(0x4300 + 0x10 * j <= op.off <= 0x430F + 0x10 * j)
      && (op.off == 0x420B ==> j !in Channels(op.value))
  }

  predicate ActionSpares(a: CpuAction, j: nat) {
    a.Instruction? ==> SparesChannel(a.first, j) && forall op :: op in a.rest ==> SparesChannel(op, j)
  }

  ghost predicate ScriptSpares(script: Script, from: nat, to: nat, j: nat) {
    forall at: nat :: from <= at < to ==> ActionSpares(script(at), j)
  }

  // ---- What the CPU does to the channel ----

  predicate MemOnly(a: Hub, b: Hub) { b == a.(mem := b.mem) }

  /** The channel's registers, HDMA state and output are those of `a`. */
  predicate ChannelKept(a: Hub, b: Hub, j: nat)
    requires j < 8
  {
    Proj(b, j) == Proj(a, j) && SentBy(b.out, j) == SentBy(a.out, j)
  }

  /** Loaded since frame start: in flight, or ended. */
  predicate Loaded(b: Hub, j: nat)
    requires j < 8
  {
    b.state[j].active || j in b.ended
  }

  lemma MemOnlyJoin(a: Hub, b: Hub, c: Hub)
    requires MemOnly(a, b) && MemOnly(b, c)
    ensures MemOnly(a, c)
  {
  }

  lemma EmitMemOnly(b: Bus, ev: DevEvent)
    ensures MemOnly(b.hub, Emit(b, ev).hub)
  {
  }

  lemma CatchUpMemOnly(e: Env, b: Bus)
    ensures MemOnly(b.hub, ApuCatchUp(e, b).hub)
  {
  }

  lemma ServiceMemOnly(e: Env, b: Bus)
    ensures MemOnly(b.hub, ServicePendingCC(e, b).hub)
  {
  }

  lemma PortReadMemOnly(e: Env, b: Bus, port: byte)
    ensures MemOnly(b.hub, ApuPortRead(e, b, port).1.hub)
  {
    hide ApuCatchUp, ServicePendingCC;
    CatchUpMemOnly(e, b);
    ServiceMemOnly(e, ApuCatchUp(e, b));
  }

  lemma BeforeWriteMemOnly(e: Env, b: Bus, port: byte, v: byte)
    ensures MemOnly(b.hub, BeforePortWrite(e, b, port, v).hub)
  {
    hide ApuCatchUp, ServicePendingCC;
    CatchUpMemOnly(e, b);
    ServiceMemOnly(e, b);
    ServiceMemOnly(e, ApuCatchUp(e, b));
  }

  lemma PortWriteMemOnly(e: Env, b: Bus, port: byte, v: byte)
    ensures MemOnly(b.hub, ApuPortWrite(e, b, port, v).hub)
  {
    hide BeforePortWrite, Emit, ApuCatchUp, ServicePendingCC, MemOnly;
    var b1 := BeforePortWrite(e, b, port, v);
    var b2 := Emit(b1, ApuWrite(port, v));
    var b3 := AfterPortWrite(e, b2, port, v);
    BeforeWriteMemOnly(e, b, port, v);
    EmitMemOnly(b1, ApuWrite(port, v));
    MemOnlyJoin(b.hub, b1.hub, b2.hub);
    AfterWriteMemOnly(e, b2, port, v);
    MemOnlyJoin(b.hub, b2.hub, b3.hub);
    EndWriteMemOnly(e, b3, port, DefersCatchUp(e, b, port));
    MemOnlyJoin(b.hub, b3.hub, ApuPortWrite(e, b, port, v).hub);
  }

  lemma AfterWriteMemOnly(e: Env, b: Bus, port: byte, v: byte)
    ensures MemOnly(b.hub, AfterPortWrite(e, b, port, v).hub)
  {
    hide ServicePendingCC;
    ServiceMemOnly(e, b);
  }

  lemma EndWriteMemOnly(e: Env, b: Bus, port: byte, defer: bool)
    ensures MemOnly(b.hub, EndPortWrite(e, b, port, defer).hub)
  {
    hide ApuCatchUp;
    CatchUpMemOnly(e, b.(pendingStrobe := false));
  }

  lemma PlainMemOnly(e: Env, b: Bus, bank: byte, off: word)
    ensures MemOnly(b.hub, ReadPort(b).1.hub)
    ensures IoReadAddress(off) ==> MemOnly(b.hub, ReadIoRegister(b, off).1.hub)
    ensures MemOnly(b.hub, ReadCart(e, b, bank, off).1.hub)
    ensures MemOnly(b.hub, ReadNmiFlag(b).1.hub) && MemOnly(b.hub, ReadTimeup(b).1.hub)
    ensures 0x4300 <= off <= 0x437F ==> MemOnly(b.hub, ReadDmaRegister(b, off).1.hub)
  {
    hide CartRead, ReadReg;
  }

  lemma PpuMemOnly(e: Env, b: Bus, reg: byte)
    ensures MemOnly(b.hub, ReadPpuSpace(e, b, reg).1.hub)
  {
    hide PpuReadReg;
  }

  lemma ReadMemOnly(e: Env, b: Bus, bank: byte, off: word)
    ensures MemOnly(b.hub, ReadSystem(e, b, bank, off).1.hub)
  {
    hide ApuPortRead, ReadPpuSpace, ReadPort, ReadIoRegister, ReadCart, ReadNmiFlag, ReadTimeup, ReadDmaRegister;
    PortReadMemOnly(e, b, off % 4);
    if 0x2100 <= off <= 0x213F { PpuMemOnly(e, b, off - 0x2100); }
    PlainMemOnly(e, b, bank, off);
  }

  lemma KickKeepsChannel(e: Env, b: Bus, mask: set<nat>, j: nat)
    requires j < 8 && j !in mask
    ensures ChannelKept(b.hub, KickDma(e, b, mask).hub, j)
  {
    hide ExecuteDma, KickPlan, PerformAll, Observable, AddMclk, MovedAll, SentBy;
    var k := Kick(b.clk, b.hub.mem, b.hub.ch);
    ExecuteDmaExact(e, k, mask);
    RegistersAfter(b.hub.ch, mask, 0, j, PerformAll(e, k.mem, KickPlan(k.ch, mask, 0)).1);
  }

  lemma MemKeepsChannel(b: Bus, m: Mem, j: nat)
    requires j < 8
    ensures ChannelKept(b.hub, WithMem(b, m).hub, j)
  {
    hide SentBy;
  }

  lemma RegisterKeepsChannel(b: Bus, off: word, v: byte, j: nat)
    requires j < 8 && 0x4300 <= off <= 0x437F && !(0x4300 + 0x10 * j <= off <= 0x430F + 0x10 * j)
    ensures ChannelKept(b.hub, WriteDmaRegister(b, off, v).hub, j)
  {
    hide WriteReg, SentBy;
  }

  lemma MdmaenKeepsChannel(e: Env, b: Bus, v: byte, j: nat)
    requires j < 8 && j !in Channels(v)
    ensures ChannelKept(b.hub, WriteMdmaen(e, b, v).hub, j)
  {
    hide KickDma, Channels, SentBy;
    KickKeepsChannel(e, b, Channels(v), j);
  }

  lemma HdmaenKeepsChannel(b: Bus, v: byte, j: nat)
    requires j < 8 && Loaded(b.hub, j)
    ensures ChannelKept(b.hub, WriteHdmaenBus(b, v).hub, j)
  {
    hide WriteHdmaen, Channels, SentBy;
    MaskKeepsChannel(b.hub, Channels(v), j);
    MaskKeepsOut(b.hub, Channels(v));
  }

  lemma ControlKeepsChannel(e: Env, b: Bus, bank: byte, off: word, v: byte, j: nat)
    requires j < 8 && Loaded(b.hub, j)
    requires !(0x4300 + 0x10 * j <= off <= 0x430F + 0x10 * j) && (off == 0x420B ==> j !in Channels(v))
    ensures ChannelKept(b.hub, WriteControl(e, b, bank, off, v).hub, j)
  {
    hide WriteMdmaen, WriteHdmaenBus, WriteDmaRegister, RecomputeIrqTarget, SetTimerRegister, NmiEdge;
    hide Channels, SentBy, Loaded;
    if off == 0x420B {
      MdmaenKeepsChannel(e, b, v, j);
    } else if off == 0x420C {
      HdmaenKeepsChannel(b, v, j);
    } else if 0x4300 <= off <= 0x437F {
      RegisterKeepsChannel(b, off, v, j);
    }
  }

  lemma WriteKeepsChannel(e: Env, b: Bus, bank: byte, off: word, v: byte, j: nat)
    requires j < 8 && Loaded(b.hub, j)
    requires !(0x4300 + 0x10 * j <= off <= 0x430F + 0x10 * j) && (off == 0x420B ==> j !in Channels(v))
    ensures ChannelKept(b.hub, WriteSystem(e, b, bank, off, v).hub, j)
  {
    hide ApuPortWrite, PpuWriteReg, BWrite, WriteControl, SentBy, Loaded, Channels, ChannelKept, WithMem;
    if off < 0x2000 {
      MemKeepsChannel(b, b.Mem().(wram := b.Mem().wram[off := v]), j);
    } else if 0x2100 <= off <= 0x2133 {
      MemKeepsChannel(b, PpuWriteReg(e, b.Mem(), off - 0x2100, v), j);
    } else if 0x2140 <= off <= 0x217F {
      PortWriteMemOnly(e, b, off % 4, v);
      OnlyMemKeeps(b.hub, ApuPortWrite(e, b, off % 4, v).hub, j);
    } else if 0x2180 <= off <= 0x2183 {
      MemKeepsChannel(b, BWrite(e, b.Mem(), off - 0x2100, v), j);
    } else {
      ControlKeepsChannel(e, b, bank, off, v, j);
    }
  }

  lemma OnlyMemKeeps(a: Hub, b: Hub, j: nat)
    requires j < 8 && MemOnly(a, b)
    ensures ChannelKept(a, b, j)
  {
    hide SentBy;
  }

  lemma StepKeepsChannel(e: Env, b: Bus, op: BusOp, j: nat)
    requires j < 8 && Loaded(b.hub, j) && SparesChannel(op, j)
    ensures ChannelKept(b.hub, Step(e, b, op).hub, j)
  {
    hide ReadSystem, ReadCart, WriteSystem, AWrite, AddMclk, MemSpeed, SentBy, Channels, Loaded;
    match op {
      case OpIdle =>
      case OpRead(bank, off) =>
        var b1 := WithClock(b, AddMclk(b.clk, MemSpeed(bank, off, b.fastRom)));
        ReadMemOnly(e, b1, bank, off);
        PlainMemOnly(e, b1, bank, off);
      case OpWrite(bank, off, v) =>
        var b1 := WithClock(b, AddMclk(b.clk, MemSpeed(bank, off, b.fastRom)));
        if SystemBank(bank) { WriteKeepsChannel(e, b1, bank, off, v, j); }
    }
  }

  lemma {:induction false} StepsKeepChannel(e: Env, b: Bus, ops: seq<BusOp>, j: nat)
    requires j < 8 && Loaded(b.hub, j) && forall op :: op in ops ==> SparesChannel(op, j)
    ensures ChannelKept(b.hub, Steps(e, b, ops).hub, j)
    decreases ops
  {
    hide Step, SentBy, SparesChannel;
    if ops != [] {
      StepKeepsChannel(e, b, ops[0], j);
      StepsKeepChannel(e, Step(e, b, ops[0]), ops[1..], j);
    }
  }

  lemma ExecuteKeepsChannel(e: Env, b: Bus, a: CpuAction, j: nat)
    requires j < 8 && Loaded(b.hub, j) && a.Instruction? && ActionSpares(a, j)
    ensures ChannelKept(b.hub, Execute(e, b, a).hub, j)
  {
    hide Steps, SentBy, SparesChannel;
    StepsKeepChannel(e, if a.takesNmi then b.(nmiPending := false) else b, [a.first] + a.rest, j);
  }

  lemma {:induction false} CpuKeepsChannel(e: Env, b: Bus, script: Script, at: nat, target: nat, j: nat)
    requires j < 8 && Loaded(b.hub, j) && ScriptSpares(script, at, RunCpu(e, b, script, at, target).1, j)
    ensures ChannelKept(b.hub, RunCpu(e, b, script, at, target).0.hub, j)
    decreases if b.clk.frame < target then target - b.clk.frame else 0
  {
    hide Execute, SentBy, ActionSpares;
    if b.clk.frame < target && !b.Faulted() && script(at).Instruction? {
      var b1 := Execute(e, b, script(at));
      ExecuteAdvances(e, b, script(at));
      CpuMovesOn(e, b1, script, at + 1, target);
      ExecuteKeepsChannel(e, b, script(at), j);
      CpuKeepsChannel(e, b1, script, at + 1, target, j);
    }
  }

  // ---- Lines ----

  lemma OpenMemOnly(e: Env, b: Bus, line: nat)
    requires line > 0
    ensures MemOnly(b.hub, OpenLine(e, b, line).hub)
  {
    hide LineClock;
  }

  lemma CloseMemOnly(e: Env, b: Bus, line: nat)
    ensures MemOnly(b.hub, CloseFrameLine(e, b, line).hub)
  {
    hide ApuCatchUp;
    CatchUpMemOnly(e, b);
  }

  /** Whether HDMA services the channel on `line`. */
  predicate ServicedOn(e: Env, b: Bus, line: nat, j: nat) {
    var b0 := OpenLine(e, b, line);
    Visible(b0, line) && j in b0.hub.hdmaen
  }

  /** Visible lines from `line` on with the channel's $420C bit set. */
  function ServicedFrom(e: Env, b: Bus, script: Script, at: nat, line: nat, j: nat): nat
    requires line <= LINES_PER_FRAME
    decreases LINES_PER_FRAME - line, b.vblankStart
  {
    if line == LINES_PER_FRAME then 0
    else
      var (b1, at1) := RunLine(e, b, script, at, line);
      (if ServicedOn(e, b, line, j) then 1 else 0)
      + (if b1.Faulted() then 0 else ServicedFrom(e, b1, script, at1, line + 1, j))
  }

  /** The region is calm while HDMA runs, on every visible line from `line` on. */
  ghost predicate CalmFrom(e: Env, b: Bus, script: Script, at: nat, line: nat, r: Region, rd: Image)
    requires line <= LINES_PER_FRAME
    decreases LINES_PER_FRAME - line, b.vblankStart
  {
    line == LINES_PER_FRAME ||
    (&& (Visible(OpenLine(e, b, line), line) ==> CalmLine(e, OpenLine(e, b, line).hub, 0, r, rd))
     && var (b1, at1) := RunLine(e, b, script, at, line);
        !b1.Faulted() ==> CalmFrom(e, b1, script, at1, line + 1, r, rd))
  }

  /** The channel stands at line `l` of the table of `c` and has sent the lines before it. */
  ghost predicate OnTable(b: Hub, j: nat, rd: Image, c: DmaChannel, l: nat, sent: seq<Write>)
    requires j < 8
  {
    Proj(b, j) == At(rd, c, c.a1t, l) && SentBy(b.out, j) == sent + TableWrites(rd, c, c.a1t, l)
  }

  lemma OnTableLoaded(b: Hub, j: nat, rd: Image, c: DmaChannel, l: nat, sent: seq<Write>)
    requires j < 8 && OnTable(b, j, rd, c, l, sent)
    ensures Loaded(b, j)
  {
    hide At, SentBy, TableWrites;
    EndedIsInactive(rd, c, c.a1t, l);
  }

  lemma OnTableKept(a: Hub, b: Hub, j: nat, rd: Image, c: DmaChannel, l: nat, sent: seq<Write>)
    requires j < 8 && ChannelKept(a, b, j) && OnTable(a, j, rd, c, l, sent)
    ensures OnTable(b, j, rd, c, l, sent)
  {
  }

  /** The HDMA of one scanline: a line of the table if the channel's bit is set, nothing otherwise. */
  lemma ServiceOnTable(e: Env, b: Hub, j: nat, r: Region, rd: Image, c: DmaChannel, l: nat, lines: nat,
                       sent: seq<Write>)
    requires j < 8 && CalmLine(e, b, 0, r, rd) && ExecuteHdma(e, b).mem.fault.None?
    requires Covers(r, rd, c, c.a1t, lines) && (j in b.hdmaen ==> l < lines)
    requires OnTable(b, j, rd, c, l, sent)
    ensures OnTable(ExecuteHdma(e, b), j, rd, c, l + (if j in b.hdmaen then 1 else 0), sent)
  {
    hide HdmaChannels, At, AutoLine, SentBy, TableWrites, Covers, CalmLine, ReadsIn;
    if j in b.hdmaen {
      CoversReads(r, rd, c, c.a1t, l, lines);
      LineOnBus(e, b, 0, j, r, rd);
      LineFollowsTable(rd, c, c.a1t, l);
      TableWritesSplit(rd, c, c.a1t, l);
      var ws := TableLine(rd, c, c.a1t, l);
      assert sent + TableWrites(rd, c, c.a1t, l) + ws == sent + (TableWrites(rd, c, c.a1t, l) + ws);
    } else {
      LineOnBus(e, b, 0, j, r, rd);
      assert SentBy(b.out, j) + [] == SentBy(b.out, j);
    }
  }

  /** The rest of the line, CPU and catch-up, leaves the channel where it is. */
  lemma LineOnTable(e: Env, b: Bus, script: Script, at: nat, line: nat, j: nat, r: Region, rd: Image,
                    c: DmaChannel, l: nat, lines: nat, sent: seq<Write>)
    requires j < 8 && line > 0 && OnTable(b.hub, j, rd, c, l, sent)
    requires !RunLine(e, b, script, at, line).0.Faulted()
    requires ScriptSpares(script, at, RunLine(e, b, script, at, line).1, j)
    requires Visible(OpenLine(e, b, line), line) ==> CalmLine(e, OpenLine(e, b, line).hub, 0, r, rd)
    requires Covers(r, rd, c, c.a1t, lines) && (ServicedOn(e, b, line, j) ==> l < lines)
    ensures var n := l + (if ServicedOn(e, b, line, j) then 1 else 0);
            OnTable(RunLine(e, b, script, at, line).0.hub, j, rd, c, n, sent)
  {
    hide OpenLine, ExecuteHdma, RunCpu, CloseFrameLine, OnTable, Covers, CalmLine, SentBy, ScriptSpares;
    var b0 := OpenLine(e, b, line);
    OpenMemOnly(e, b, line);
    OnTableKept(b.hub, b0.hub, j, rd, c, l, sent);
    var b1 := LineHdma(e, b0, line);
    var n := l + (if ServicedOn(e, b, line, j) then 1 else 0);
    if Visible(b0, line) {
      ServiceOnTable(e, b0.hub, j, r, rd, c, l, lines, sent);
    }
    assert OnTable(b1.hub, j, rd, c, n, sent);
    OnTableLoaded(b1.hub, j, rd, c, n, sent);
    RestKeepsChannel(e, b1, script, at, line, j);
    var b2 := RunCpu(e, b1, script, at, (line + 1) * MCLK_PER_LINE).0;
    OnTableKept(b1.hub, CloseFrameLine(e, b2, line).hub, j, rd, c, n, sent);
  }

  lemma RestKeepsChannel(e: Env, b1: Bus, script: Script, at: nat, line: nat, j: nat)
    requires j < 8 && Loaded(b1.hub, j)
    requires ScriptSpares(script, at, RunCpu(e, b1, script, at, (line + 1) * MCLK_PER_LINE).1, j)
    ensures var b2 := RunCpu(e, b1, script, at, (line + 1) * MCLK_PER_LINE).0;
            ChannelKept(b1.hub, CloseFrameLine(e, b2, line).hub, j)
  {
    hide RunCpu, CloseFrameLine, SentBy, ScriptSpares, Loaded;
    CpuKeepsChannel(e, b1, script, at, (line + 1) * MCLK_PER_LINE, j);
    var b2 := RunCpu(e, b1, script, at, (line + 1) * MCLK_PER_LINE).0;
    CloseMemOnly(e, b2, line);
  }

  lemma {:induction false} LinesOnTable(e: Env, b: Bus, script: Script, at: nat, line: nat, j: nat, r: Region,
                                        rd: Image, c: DmaChannel, l: nat, sent: seq<Write>)
    requires j < 8 && 0 < line <= LINES_PER_FRAME && OnTable(b.hub, j, rd, c, l, sent)
    requires !RunLines(e, b, script, at, line).0.Faulted()
    requires ScriptSpares(script, at, RunLines(e, b, script, at, line).1, j)
    requires CalmFrom(e, b, script, at, line, r, rd)
    requires Covers(r, rd, c, c.a1t, l + ServicedFrom(e, b, script, at, line, j))
    ensures OnTable(RunLines(e, b, script, at, line).0.hub, j, rd, c, l + ServicedFrom(e, b, script, at, line, j), sent)
    decreases LINES_PER_FRAME - line
  {
    hide RunLine, OnTable, Covers, CalmLine, ActionSpares, ServicedOn, OpenLine;
    if line < LINES_PER_FRAME {
      var (b1, at1) := RunLine(e, b, script, at, line);
      LineMovesOn(e, b, script, at, line);
      LinesMoveOn(e, b1, script, at1, line + 1);
      var n := l + (if ServicedOn(e, b, line, j) then 1 else 0);
      LineOnTable(e, b, script, at, line, j, r, rd, c, l, l + ServicedFrom(e, b, script, at, line, j), sent);
      LinesOnTable(e, b1, script, at1, line + 1, j, r, rd, c, n, sent);
    }
  }

  // ---- A whole frame ----

  lemma LogCalm(e: Env, m: Mem, log: Log, r: Region, rd: Image)
    requires Calm(e, m, r, rd)
    ensures Calm(e, m.(log := log), r, rd)
  {
    forall bank: byte, off: word ensures ARead(e, m.(log := log), bank, off) == ARead(e, m, bank, off) {
      LogKeepsABus(e, m, log, bank, off);
    }
  }

  /** What InitHdma starts from on line 0: the same bus, two picture events later. */
  function FrameStart(e: Env, b: Bus): Hub {
    Emit(StartLine(BeginFrame(e, b), 0), PpuSetLine(0)).hub
  }

  lemma FrameStartHub(e: Env, b: Bus)
    ensures FrameStart(e, b) == b.hub.(mem := b.Mem().(log := FrameStart(e, b).mem.log))
    ensures OpenLine(e, b, 0).hub == InitHdma(e, FrameStart(e, b))
  {
    hide InitHdma, LineClock;
  }

  lemma FirstLineOnTable(e: Env, b: Bus, script: Script, at: nat, j: nat, r: Region, rd: Image)
    requires j < 8 && j in b.hub.hdmaen && Calm(e, b.Mem(), r, rd)
    requires HeaderIn(r, rd, b.hub.ch[j], b.hub.ch[j].a1t)
    requires !RunLine(e, b, script, at, 0).0.Faulted()
    requires ScriptSpares(script, at, RunLine(e, b, script, at, 0).1, j)
    ensures OnTable(RunLine(e, b, script, at, 0).0.hub, j, rd, b.hub.ch[j], 0, SentBy(b.hub.out, j))
  {
    hide OpenLine, RunCpu, CloseFrameLine, OnTable, Calm, SentBy, ScriptSpares, InitChannels, HeaderIn;
    var c, sent := b.hub.ch[j], SentBy(b.hub.out, j);
    var b0 := OpenLine(e, b, 0);
    var h := FrameStart(e, b);
    FrameStartHub(e, b);
    LogCalm(e, b.Mem(), h.mem.log, r, rd);
    InitLoads(e, h.(ended := {}), 0, j, r, rd);
    StartOnTable(b0.hub, j, rd, c, sent);
    OnTableLoaded(b0.hub, j, rd, c, 0, sent);
    RestKeepsChannel(e, b0, script, at, 0, j);
    var b2 := RunCpu(e, b0, script, at, MCLK_PER_LINE).0;
    OnTableKept(b0.hub, CloseFrameLine(e, b2, 0).hub, j, rd, c, 0, sent);
  }

  lemma StartOnTable(b: Hub, j: nat, rd: Image, c: DmaChannel, sent: seq<Write>)
    requires j < 8 && Proj(b, j) == At(rd, c, c.a1t, 0) && SentBy(b.out, j) == sent
    ensures OnTable(b, j, rd, c, 0, sent)
  {
    assert sent + [] == sent;
  }

  /**
   HDMA refines its table over a frame of the scheduler. If the channel is enabled when the frame
   starts, the program neither writes its registers nor kicks it, and its table and data stay calm
   while HDMA runs, then a fault-free frame sends exactly the table's first n lines, n being the
   number of visible lines on which its $420C bit was set.
   */
  lemma FrameRefinesTable(e: Env, c: CoreState, script: Script, j: nat, r: Region, rd: Image)
    requires j < 8 && j in c.bus.hub.hdmaen && Calm(e, c.bus.Mem(), r, rd)
    requires !RunOneFrame(e, c, script).bus.Faulted()
    requires ScriptSpares(script, c.at, RunOneFrame(e, c, script).at, j)
    requires CalmFrom(e, CarryOver(c.bus), script, c.at, 0, r, rd)
    requires var d := c.bus.hub.ch[j];
             Covers(r, rd, d, d.a1t, ServicedFrom(e, CarryOver(c.bus), script, c.at, 0, j))
    ensures var d := c.bus.hub.ch[j];
            var n := ServicedFrom(e, CarryOver(c.bus), script, c.at, 0, j);
            var end := RunOneFrame(e, c, script).bus.hub;
            && Proj(end, j) == At(rd, d, d.a1t, n)
            && SentBy(end.out, j) == SentBy(c.bus.hub.out, j) + TableWrites(rd, d, d.a1t, n)
  {
    hide RunLine, OpenLine, CalmLine, Calm, ActionSpares, At, TableWrites, SentBy, HeaderIn;
    var b := CarryOver(c.bus);
    var d := b.hub.ch[j];
    var (b1, at1) := RunLine(e, b, script, c.at, 0);
    assert HeaderIn(r, rd, d, d.a1t);
    NoHdmaOnLineZero(e, b, j);
    LineMovesOn(e, b, script, c.at, 0);
    LinesMoveOn(e, b1, script, at1, 1);
    FirstLineOnTable(e, b, script, c.at, j, r, rd);
    LinesOnTable(e, b1, script, at1, 1, j, r, rd, d, 0, SentBy(b.hub.out, j));
  }

  lemma NoHdmaOnLineZero(e: Env, b: Bus, j: nat)
    ensures !ServicedOn(e, b, 0, j)
  {
    hide OpenLine;
  }

  // ---- Tables in ROM ----

  predicate InRom(bank: byte, off: word) { off >= 0x8000 && (bank <= 0x7D || 0x80 <= bank) }

  ghost predicate RomRegion(r: Region) {
    forall bank: byte, off: word :: (bank, off) in r ==> InRom(bank, off)
  }

  /** The cartridge's bytes, whatever memory and registers hold. */
  function RomImage(e: Env): Image {
    (bank: byte, off: word) =>
      var v := CartRead(e, [], bank, off); if v.Some? then v.value else 0
  }

  lemma RomCalm(e: Env, m: Mem, r: Region)
    requires RomRegion(r)
    ensures Calm(e, m, r, RomImage(e))
  {
    forall bank: byte, off: word | (bank, off) in r
      ensures ARead(e, m, bank, off) == RomImage(e)(bank, off)
    {
      assert InRom(bank, off);
    }
  }

  lemma {:induction false} RomCalmUnit(e: Env, b: Hub, i: nat, p: nat, r: Region)
    requires i < 8 && RomRegion(r)
    ensures CalmUnit(e, b, i, p, r, RomImage(e))
    decreases UnitLen(b.ch[i]) - p
  {
    hide Calm, RomImage, MoveUnitByte;
    RomCalm(e, b.mem, r);
    if p < UnitLen(b.ch[i]) {
      RomCalmUnit(e, MoveUnitByte(e, b, i, p), i, p + 1, r);
    }
  }

  lemma {:induction false} RomCalmLine(e: Env, b: Hub, i: nat, r: Region)
    requires i <= 8 && RomRegion(r)
    ensures CalmLine(e, b, i, r, RomImage(e))
    decreases 8 - i
  {
    hide Calm, RomImage, CalmUnit, ServiceChannel;
    RomCalm(e, b.mem, r);
    if i < 8 {
      if Serviced(b, i) {
        RomCalmUnit(e, b, i, 0, r);
        RomCalmLine(e, ServiceChannel(e, b, i), i + 1, r);
      } else {
        RomCalmLine(e, b, i + 1, r);
      }
    }
  }

  lemma {:induction false} RomCalmFrom(e: Env, b: Bus, script: Script, at: nat, line: nat, r: Region)
    requires line <= LINES_PER_FRAME && RomRegion(r)
    ensures CalmFrom(e, b, script, at, line, r, RomImage(e))
    decreases LINES_PER_FRAME - line
  {
    hide CalmLine, RomImage, OpenLine, RunLine;
    if line < LINES_PER_FRAME {
      RomCalmLine(e, OpenLine(e, b, line).hub, 0, r);
      var (b1, at1) := RunLine(e, b, script, at, line);
      if !b1.Faulted() {
        RomCalmFrom(e, b1, script, at1, line + 1, r);
      }
    }
  }

  /**
   A table and data that lie in ROM are calm whatever happens: any program that leaves the channel's
   registers alone gets exactly the table, whatever else it, general DMA and the other channels do.
   */
  lemma RomTableSent(e: Env, c: CoreState, script: Script, j: nat, r: Region)
    requires j < 8 && j in c.bus.hub.hdmaen && RomRegion(r)
    requires !RunOneFrame(e, c, script).bus.Faulted()
    requires ScriptSpares(script, c.at, RunOneFrame(e, c, script).at, j)
    requires var d := c.bus.hub.ch[j];
             Covers(r, RomImage(e), d, d.a1t, ServicedFrom(e, CarryOver(c.bus), script, c.at, 0, j))
    ensures var d := c.bus.hub.ch[j];
            var n := ServicedFrom(e, CarryOver(c.bus), script, c.at, 0, j);
            SentBy(RunOneFrame(e, c, script).bus.hub.out, j)
            == SentBy(c.bus.hub.out, j) + TableWrites(RomImage(e), d, d.a1t, n)
  {
    hide RunOneFrame, CalmFrom, RomImage, Calm, Covers, ScriptSpares, TableWrites, SentBy, At;
    RomCalm(e, c.bus.Mem(), r);
    RomCalmFrom(e, CarryOver(c.bus), script, c.at, 0, r);
    FrameRefinesTable(e, c, script, j, r, RomImage(e));
  }
}
