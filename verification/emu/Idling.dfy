/** A core whose CPU only idles: it cannot fault, and every line ends on the first idle cycle past it. */
module Idling {
  import opened Timing
  import opened Clock
  import opened Memory
  import opened Dma
  import opened Hdma
  import opened BusOps
  import opened BusTime
  import opened Frame

  const IDLE := Instruction(false, OpIdle, [])

  ghost predicate IdlesFrom(script: Script, at: nat) {
    forall i: nat :: i >= at ==> script(i) == IDLE
  }

  /** The sound CPU never halts. */
  ghost predicate NeverHalts(e: Env) {
    forall log: Log :: e.apuHalt(log) == None
  }

  predicate Resting(b: Bus) { !b.Faulted() && b.hub.hdmaen == {} }

  lemma IdleStep(e: Env, b: Bus)
    ensures Execute(e, b, IDLE) == b.(clk := AddMclk(b.clk, MCLK_PER_INTERNAL_CYCLE))
  {
    assert [OpIdle] + [] == [OpIdle] && [OpIdle][1..] == [];
  }

  /** Idling moves the clock to the first idle cycle at or past the target, and nothing else. */
  lemma {:induction false} IdleCpu(e: Env, b: Bus, script: Script, at: nat, target: nat)
    requires IdlesFrom(script, at) && !b.Faulted()
    ensures var (r, at1) := RunCpu(e, b, script, at, target);
            && at1 >= at && r == b.(clk := r.clk) && r.clk.nmitimen == b.clk.nmitimen && r.clk.vtime == b.clk.vtime
            && r.clk.frame == if b.clk.frame < target
                              then b.clk.frame + (target - b.clk.frame + 5) / 6 * 6 else b.clk.frame
    decreases if b.clk.frame < target then target - b.clk.frame else 0
  {
    hide Execute, AddMclk;
    if b.clk.frame < target {
      IdleStep(e, b);
      TickTotal(b.clk, MCLK_PER_INTERNAL_CYCLE);
      IdleCpu(e, Execute(e, b, IDLE), script, at + 1, target);
    }
  }

  lemma {:induction false} NoHdmaInit(e: Env, b: Hub, i: nat)
    requires i <= 8 && b.hdmaen == {}
    ensures InitChannels(e, b, i).mem == b.mem && InitChannels(e, b, i).hdmaen == {}
    decreases 8 - i
  {
    hide LoadEntry;
    if i < 8 {
      NoHdmaInit(e, b.(state := b.state[i := INACTIVE]), i + 1);
    }
  }

  lemma {:induction false} NoHdmaLine(e: Env, b: Hub, i: nat)
    requires i <= 8 && b.hdmaen == {}
    ensures HdmaChannels(e, b, i) == b
    decreases 8 - i
  {
    hide ServiceChannel;
    if i < 8 {
      NoHdmaLine(e, b, i + 1);
    }
  }

  lemma FrameStartRests(e: Env, b: Bus)
    requires Resting(b)
    ensures Resting(OpenLine(e, b, 0))
  {
    hide InitChannels, FreshTarget;
    NoHdmaInit(e, Emit(StartLine(BeginFrame(e, b), 0), PpuSetLine(0)).hub.(ended := {}), 0);
  }

  lemma OpenRests(e: Env, b: Bus, line: nat)
    requires Resting(b)
    ensures Resting(OpenLine(e, b, line))
  {
    hide InitHdma, FreshTarget;
    FrameStartRests(e, b);
  }

  lemma RestingOpen(e: Env, b: Bus, line: nat)
    requires Resting(b)
    ensures var b1 := LineHdma(e, OpenLine(e, b, line), line); Resting(b1) && b1.clk == LineClock(b.clk, line)
  {
    hide OpenLine, HdmaChannels, LineClock;
    OpenLineTime(e, b, line);
    OpenRests(e, b, line);
    NoHdmaLine(e, OpenLine(e, b, line).hub, 0);
  }

  lemma RestingClose(e: Env, b: Bus, line: nat)
    requires Resting(b) && NeverHalts(e)
    ensures Resting(CloseFrameLine(e, b, line)) && CloseFrameLine(e, b, line).clk == b.clk
  {
  }

  /** An idle line ends less than one idle cycle past its end, if it was entered before that. */
  lemma IdleLine(e: Env, b: Bus, script: Script, at: nat, line: nat)
    requires IdlesFrom(script, at) && Resting(b) && NeverHalts(e)
    requires b.clk.frame < (line + 1) * MCLK_PER_LINE
    ensures var (r, at1) := RunLine(e, b, script, at, line);
            && at1 >= at && Resting(r)
            && r.clk.nmitimen == b.clk.nmitimen && r.clk.vtime == b.clk.vtime
            && (line + 1) * MCLK_PER_LINE <= r.clk.frame < (line + 1) * MCLK_PER_LINE + 6
  {
    hide OpenLine, LineHdma, RunCpu, CloseFrameLine;
    var b1 := LineHdma(e, OpenLine(e, b, line), line);
    RestingOpen(e, b, line);
    IdleCpu(e, b1, script, at, (line + 1) * MCLK_PER_LINE);
    var (b2, at2) := RunCpu(e, b1, script, at, (line + 1) * MCLK_PER_LINE);
    RestingClose(e, b2, line);
  }

  lemma {:induction false} IdleLines(e: Env, b: Bus, script: Script, at: nat, line: nat)
    requires line < LINES_PER_FRAME && IdlesFrom(script, at) && Resting(b) && NeverHalts(e)
    requires b.clk.frame < (line + 1) * MCLK_PER_LINE
    ensures var (r, at1) := RunLines(e, b, script, at, line);
            && at1 >= at && Resting(r)
            && r.clk.nmitimen == b.clk.nmitimen && r.clk.vtime == b.clk.vtime
            && MCLK_PER_FRAME <= r.clk.frame < MCLK_PER_FRAME + 6
    decreases LINES_PER_FRAME - line
  {
    hide RunLine, Resting, IdlesFrom;
    IdleLine(e, b, script, at, line);
    var (b1, at1) := RunLine(e, b, script, at, line);
    assert !b1.Faulted() by { RestingSound(b1); }
    assert IdlesFrom(script, at1) by { IdlesLater(script, at, at1); }
    if line + 1 < LINES_PER_FRAME {
      IdleLines(e, b1, script, at1, line + 1);
    }
  }

  lemma RestingSound(b: Bus)
    requires Resting(b)
    ensures !b.Faulted()
  {
  }

  lemma IdlesLater(script: Script, at: nat, later: nat)
    requires IdlesFrom(script, at) && at <= later
    ensures IdlesFrom(script, later)
  {
  }
}
