/** The frame scheduler: 262 scanlines of CPU time, HDMA and APU catch-up, with overruns carried over. */
module Frame {
  import opened Timing
  import opened Clock
  import opened Memory
  import opened Hdma
  import opened IoUnit
  import opened BusOps
  import opened BusTime

  /** One CPU step: halted, or one instruction (or idle cycle) as a non-empty run of bus operations. */
  datatype CpuAction =
    | Stopped
    | Instruction(takesNmi: bool, first: BusOp, rest: seq<BusOp>)

  /** What the CPU does, step after step; every execution of the real CPU is one of these. */
  type Script = nat -> CpuAction

  function Execute(e: Env, b: Bus, a: CpuAction): Bus
    requires a.Instruction?
  {
    Steps(e, if a.takesNmi then b.(nmiPending := false) else b, [a.first] + a.rest)
  }

  lemma ExecuteTime(e: Env, b: Bus, a: CpuAction) returns (n: nat)
    requires a.Instruction?
    ensures n >= 6 && Elapsed(b.clk, Execute(e, b, a).clk, n)
  {
    n := StepsTime(e, if a.takesNmi then b.(nmiPending := false) else b, [a.first] + a.rest);
  }

  lemma ExecuteAdvances(e: Env, b: Bus, a: CpuAction)
    requires a.Instruction?
    ensures Execute(e, b, a).clk.frame > b.clk.frame
  {
    var n := ExecuteTime(e, b, a);
  }

  /** CPU steps from `at` on, until the clock reaches `target` or a fault is recorded. */
  function RunCpu(e: Env, b: Bus, script: Script, at: nat, target: nat): (Bus, nat)
    decreases if b.clk.frame < target then target - b.clk.frame else 0
  {
    if b.clk.frame >= target || b.Faulted() then (b, at)
    else if script(at).Stopped? then (Raise(b, CpuStopped), at + 1)
    else
      ExecuteAdvances(e, b, script(at));
      RunCpu(e, Execute(e, b, script(at)), script, at + 1, target)
  }

  // ---- One scanline ----

  /** The pad word given for the frame is latched, and the picture unit says how tall the picture is. */
  function BeginFrame(e: Env, b: Bus): Bus {
    var b1 := Emit(b, PpuBeginFrame);
    b1.(vblankStart := if e.overscan(b1.Mem().log) then 240 else 225,
        io := b.io.(joypad := b.io.joypad.(pad := e.pad(b.Mem().log) % 0x1000)))
  }

  function OpenLine(e: Env, b: Bus, line: nat): Bus {
    var b1 := Emit(StartLine(if line == 0 then BeginFrame(e, b) else b, line), PpuSetLine(line));
    if line == 0 then b1.(hub := InitHdma(e, b1.hub))
    else if line == b1.vblankStart then Emit(b1, PpuBeginVblank)
    else b1
  }

  predicate Visible(b: Bus, line: nat) { FIRST_VISIBLE_LINE <= line < b.vblankStart }

  function LineHdma(e: Env, b: Bus, line: nat): Bus {
    if Visible(b, line) then b.(hub := ExecuteHdma(e, b.hub)) else b
  }

  function CloseFrameLine(e: Env, b: Bus, line: nat): Bus {
    var b1 := ApuCatchUp(e, b);
    if !b1.Faulted() && Visible(b1, line) then Emit(b1, PpuRender(line)) else b1
  }

  function RunLine(e: Env, b: Bus, script: Script, at: nat, line: nat): (Bus, nat) {
    var b1 := LineHdma(e, OpenLine(e, b, line), line);
    if b1.Faulted() then (b1, at)
    else
      var (b2, at2) := RunCpu(e, b1, script, at, (line + 1) * MCLK_PER_LINE);
      (if b2.Faulted() then b2 else CloseFrameLine(e, b2, line), at2)
  }

  function RunLines(e: Env, b: Bus, script: Script, at: nat, line: nat): (Bus, nat)
    requires line <= LINES_PER_FRAME
    decreases LINES_PER_FRAME - line, b.vblankStart
  {
    if line == LINES_PER_FRAME then (b, at)
    else
      var (b1, at1) := RunLine(e, b, script, at, line);
      if b1.Faulted() then (b1, at1) else RunLines(e, b1, script, at1, line + 1)
  }

  // ---- Whole frames ----

  /** `front` stands for the committed picture by the device log the picture unit drew it from. */
  datatype CoreState = CoreState(bus: Bus, at: nat, frame: nat, front: Log)

  /** A single subtraction: an overrun longer than a frame stays on the clock. */
  function CarryOver(b: Bus): Bus {
    if b.clk.frame >= MCLK_PER_FRAME then b.(clk := b.clk.(frame := b.clk.frame - MCLK_PER_FRAME)) else b
  }

  function RunOneFrame(e: Env, c: CoreState, script: Script): CoreState {
    if c.bus.Faulted() then c
    else
      var (b, at) := RunLines(e, CarryOver(c.bus), script, c.at, 0);
      if b.Faulted() then c.(bus := b, at := at) else CoreState(b, at, c.frame + 1, b.Mem().log)
  }

  function RunFrames(e: Env, c: CoreState, script: Script, k: nat): CoreState {
    if k == 0 then c else RunOneFrame(e, RunFrames(e, c, script, k - 1), script)
  }

  // ---- Steps are taken in order ----

  lemma {:induction false} CpuMovesOn(e: Env, b: Bus, script: Script, at: nat, target: nat)
    ensures RunCpu(e, b, script, at, target).1 >= at
    decreases if b.clk.frame < target then target - b.clk.frame else 0
  {
    hide Execute;
    if b.clk.frame < target && !b.Faulted() && script(at).Instruction? {
      ExecuteAdvances(e, b, script(at));
      CpuMovesOn(e, Execute(e, b, script(at)), script, at + 1, target);
    }
  }

  lemma LineMovesOn(e: Env, b: Bus, script: Script, at: nat, line: nat)
    ensures RunLine(e, b, script, at, line).1 >= at
  {
    hide OpenLine, LineHdma, CloseFrameLine, RunCpu;
    CpuMovesOn(e, LineHdma(e, OpenLine(e, b, line), line), script, at, (line + 1) * MCLK_PER_LINE);
  }

  lemma {:induction false} LinesMoveOn(e: Env, b: Bus, script: Script, at: nat, line: nat)
    requires line <= LINES_PER_FRAME
    ensures RunLines(e, b, script, at, line).1 >= at
    decreases LINES_PER_FRAME - line
  {
    hide RunLine;
    if line < LINES_PER_FRAME {
      var (b1, at1) := RunLine(e, b, script, at, line);
      LineMovesOn(e, b, script, at, line);
      LinesMoveOn(e, b1, script, at1, line + 1);
    }
  }

  // ---- Time conservation ----

  lemma {:induction false} CpuTime(e: Env, b: Bus, script: Script, at: nat, target: nat) returns (n: nat)
    ensures var b1 := RunCpu(e, b, script, at, target).0;
            Elapsed(b.clk, b1.clk, n) && (!b1.Faulted() ==> b1.clk.frame >= target)
    decreases if b.clk.frame < target then target - b.clk.frame else 0
  {
    hide Execute, Elapsed;
    if b.clk.frame >= target || b.Faulted() || script(at).Stopped? {
      n := 0;
      ElapsedNone(b.clk);
    } else {
      var m := ExecuteTime(e, b, script(at));
      var b1 := Execute(e, b, script(at));
      ExecuteAdvances(e, b, script(at));
      var r := CpuTime(e, b1, script, at + 1, target);
      ElapsedJoin(b.clk, b1.clk, RunCpu(e, b1, script, at + 1, target).0.clk, m, r);
      n := m + r;
    }
  }

  lemma OpenLineTime(e: Env, b: Bus, line: nat)
    ensures Elapsed(b.clk, LineHdma(e, OpenLine(e, b, line), line).clk, 0)
    ensures LineHdma(e, OpenLine(e, b, line), line).clk == LineClock(b.clk, line)
  {
    hide InitHdma, ExecuteHdma, FreshTarget;
  }

  lemma CloseLineTime(e: Env, b: Bus, line: nat)
    ensures CloseFrameLine(e, b, line).clk == b.clk
  {
    hide ApuCatchUp;
    CatchUpKeepsClock(e);
  }

  lemma LineTime(e: Env, b: Bus, script: Script, at: nat, line: nat) returns (n: nat)
    ensures var b1 := RunLine(e, b, script, at, line).0;
            Elapsed(b.clk, b1.clk, n) && (!b1.Faulted() ==> b1.clk.frame >= (line + 1) * MCLK_PER_LINE)
  {
    hide OpenLine, LineHdma, CloseFrameLine, RunCpu, Elapsed;
    var b1 := LineHdma(e, OpenLine(e, b, line), line);
    OpenLineTime(e, b, line);
    n := CpuTime(e, b1, script, at, (line + 1) * MCLK_PER_LINE);
    var b2 := RunCpu(e, b1, script, at, (line + 1) * MCLK_PER_LINE).0;
    ElapsedJoin(b.clk, b1.clk, b2.clk, 0, n);
    CloseLineTime(e, b2, line);
    if b1.Faulted() { n := 0; }
  }

  lemma {:induction false} LinesTime(e: Env, b: Bus, script: Script, at: nat, line: nat) returns (n: nat)
    requires line <= LINES_PER_FRAME && b.clk.frame >= line * MCLK_PER_LINE
    ensures var b1 := RunLines(e, b, script, at, line).0;
            Elapsed(b.clk, b1.clk, n) && (!b1.Faulted() ==> b1.clk.frame >= MCLK_PER_FRAME)
    decreases LINES_PER_FRAME - line
  {
    hide RunLine, Elapsed;
    if line == LINES_PER_FRAME {
      n := 0;
      ElapsedNone(b.clk);
    } else {
      var m := LineTime(e, b, script, at, line);
      var (b1, at1) := RunLine(e, b, script, at, line);
      if b1.Faulted() {
        n := m;
      } else {
        var r := LinesTime(e, b1, script, at1, line + 1);
        ElapsedJoin(b.clk, b1.clk, RunLines(e, b1, script, at1, line + 1).0.clk, m, r);
        n := m + r;
      }
    }
  }

  /** Total time is frame time plus the frames already subtracted, modulo the 64-bit clock. */
  predicate Conserved(c: CoreState, k: nat)
    requires k >= 1
  {
    && c.frame == k && c.bus.clk.frame >= MCLK_PER_FRAME
    && c.bus.clk.total == (c.bus.clk.frame + (k - 1) * MCLK_PER_FRAME) % TOTAL_RANGE
  }

  /** A core that has run no frame: its clock shows the reset sequence only. */
  predicate PowerOn(c: CoreState) {
    c.frame == 0 && c.bus.clk.frame < MCLK_PER_FRAME && c.bus.clk.total == c.bus.clk.frame
  }

  lemma FirstFrame(e: Env, c: CoreState, script: Script)
    requires PowerOn(c) && !RunOneFrame(e, c, script).bus.Faulted()
    ensures Conserved(RunOneFrame(e, c, script), 1)
  {
    hide RunLines;
    var n := LinesTime(e, c.bus, script, c.at, 0);
  }

  lemma NextFrame(e: Env, c: CoreState, script: Script, k: nat)
    requires k >= 1 && Conserved(c, k) && !RunOneFrame(e, c, script).bus.Faulted()
    ensures Conserved(RunOneFrame(e, c, script), k + 1)
  {
    hide RunLines;
    var n := LinesTime(e, CarryOver(c.bus), script, c.at, 0);
    var f := c.bus.clk.frame - MCLK_PER_FRAME;
    assert f + n + (k + 1 - 1) * MCLK_PER_FRAME == c.bus.clk.frame + (k - 1) * MCLK_PER_FRAME + n;
    ModAdd(c.bus.clk.frame + (k - 1) * MCLK_PER_FRAME, n);
  }

  lemma FaultLatches(e: Env, c: CoreState, script: Script)
    ensures RunOneFrame(e, c, script).bus.Faulted() ==>
              RunOneFrame(e, c, script).frame == c.frame && RunOneFrame(e, c, script).front == c.front
    ensures c.bus.Faulted() ==> RunOneFrame(e, c, script) == c
  {
  }

  /**
   Frame time is conserved: after k fault-free frames, overruns and all, the frame clock is past a
   whole frame and the total clock is that plus the k - 1 frames subtracted.
   */
  lemma {:induction false} FrameTimeConserved(e: Env, c: CoreState, script: Script, k: nat)
    requires k >= 1 && PowerOn(c) && !RunFrames(e, c, script, k).bus.Faulted()
    ensures Conserved(RunFrames(e, c, script, k), k)
    decreases k
  {
    hide RunOneFrame, Conserved;
    FaultLatches(e, RunFrames(e, c, script, k - 1), script);
    if k == 1 {
      FirstFrame(e, c, script);
    } else {
      FrameTimeConserved(e, c, script, k - 1);
      NextFrame(e, RunFrames(e, c, script, k - 1), script, k - 1);
    }
  }

  /** From the first fault on, the committed picture and the frame counter never change. */
  lemma {:induction false} FaultedForever(e: Env, c: CoreState, script: Script, k: nat, later: nat)
    requires k <= later && RunFrames(e, c, script, k).bus.Faulted()
    ensures RunFrames(e, c, script, later) == RunFrames(e, c, script, k)
    ensures k >= 1 && !RunFrames(e, c, script, k - 1).bus.Faulted() ==>
              && RunFrames(e, c, script, later).front == RunFrames(e, c, script, k - 1).front
              && RunFrames(e, c, script, later).frame == RunFrames(e, c, script, k - 1).frame
    decreases later
  {
    hide RunOneFrame;
    if k >= 1 {
      FaultLatches(e, RunFrames(e, c, script, k - 1), script);
    }
    if k < later {
      FaultedForever(e, c, script, k, later - 1);
      FaultLatches(e, RunFrames(e, c, script, later - 1), script);
    }
  }
}
