/** The DMA register file and general DMA. */
module Dma {
  import opened Timing
  import opened Clock
  import opened Memory

  datatype DmaChannel = DmaChannel(
    dmap: byte, bbad: byte, a1t: word, a1b: byte, das: word, dasb: byte, a2a: word, ntrl: byte)
  {
    predicate BToA() { Bit(dmap, 7) }
    predicate Indirect() { Bit(dmap, 6) }
    predicate Fixed() { Bit(dmap, 3) }
    predicate Decrement() { !Fixed() && Bit(dmap, 4) }

    /** Bytes a general DMA of this channel moves. */
    function Count(): (n: nat)
      ensures 0 < n <= 0x1_0000
    {
      if das == 0 then 0x1_0000 else das
    }
  }

  type Channels8 = s: seq<DmaChannel> | |s| == 8
    ghost witness seq(8, _ => DmaChannel(0, 0, 0, 0, 0, 0, 0, 0))

  function SetLow(w: word, v: byte): word { w / 0x100 * 0x100 + v }
  function SetHigh(w: word, v: byte): word { v * 0x100 + w % 0x100 }

  function ReadReg(c: DmaChannel, reg: byte): Option<byte> {
    match reg
    case 0x0 => Some(c.dmap)
    case 0x1 => Some(c.bbad)
    case 0x2 => Some(c.a1t % 0x100)
    case 0x3 => Some(c.a1t / 0x100)
    case 0x4 => Some(c.a1b)
    case 0x5 => Some(c.das % 0x100)
    case 0x6 => Some(c.das / 0x100)
    case 0x7 => Some(c.dasb)
    case 0x8 => Some(c.a2a % 0x100)
    case 0x9 => Some(c.a2a / 0x100)
    case 0xA => Some(c.ntrl)
    case _ => None
  }

  function WriteReg(c: DmaChannel, reg: byte, v: byte): DmaChannel {
    match reg
    case 0x0 => c.(dmap := v)
    case 0x1 => c.(bbad := v)
    case 0x2 => c.(a1t := SetLow(c.a1t, v))
    case 0x3 => c.(a1t := SetHigh(c.a1t, v))
    case 0x4 => c.(a1b := v)
    case 0x5 => c.(das := SetLow(c.das, v))
    case 0x6 => c.(das := SetHigh(c.das, v))
    case 0x7 => c.(dasb := v)
    case 0x8 => c.(a2a := SetLow(c.a2a, v))
    case 0x9 => c.(a2a := SetHigh(c.a2a, v))
    case 0xA => c.(ntrl := v)
    case _ => c
  }

  function UnitPattern(dmap: byte): (p: seq<nat>)
    ensures |p| == 1 || |p| == 2 || |p| == 4
  {
    match dmap % 8
    case 0 => [0]
    case 1 => [0, 1]
    case 2 => [0, 0]
    case 3 => [0, 0, 1, 1]
    case 4 => [0, 1, 2, 3]
    case 5 => [0, 1, 0, 1]
    case 6 => [0, 0]
    case 7 => [0, 0, 1, 1]
  }

  function BReg(bbad: byte, offset: nat): byte { (bbad + offset) % 0x100 }

  // ---- The engine, byte by byte ----

  datatype Transfer = Transfer(clk: Clock, mem: Mem, c: DmaChannel)

  /** Memory after moving the byte the channel registers name. */
  function MoveByte(e: Env, m: Mem, c: DmaChannel, reg: byte): Mem {
    if c.BToA() then
      var (v, m1) := BRead(e, m, reg);
      AWrite(m1, c.a1b, c.a1t, v)
    else BWrite(e, m, reg, ARead(e, m, c.a1b, c.a1t))
  }

  function StepRegisters(c: DmaChannel): DmaChannel {
    c.(a1t := if c.Fixed() then c.a1t
              else if c.Decrement() then (c.a1t + 0xFFFF) % 0x1_0000 else (c.a1t + 1) % 0x1_0000,
       das := if c.das == 0 then 0xFFFF else c.das - 1)
  }

  /** The byte loop: a faulting byte leaves the registers and the clock pointing at itself. */
  function DmaLoop(e: Env, t: Transfer, remaining: nat, pos: nat): Transfer
    decreases remaining
  {
    if remaining == 0 || t.mem.fault.Some? then t
    else
      var pattern := UnitPattern(t.c.dmap);
      var m := MoveByte(e, t.mem, t.c, BReg(t.c.bbad, pattern[pos % |pattern|]));
      if m.fault.Some? then t.(mem := m)
      else DmaLoop(e, Transfer(AddMclk(t.clk, 8), m, StepRegisters(t.c)), remaining - 1, (pos + 1) % |pattern|)
  }

  datatype Kick = Kick(clk: Clock, mem: Mem, ch: Channels8)

  function DmaChannels(e: Env, k: Kick, mask: set<nat>, i: nat): Kick
    requires i <= 8
    decreases 8 - i, mask
  {
    if i == 8 then k
    else if i !in mask then DmaChannels(e, k, mask, i + 1)
    else
      var t := DmaLoop(e, Transfer(AddMclk(k.clk, 8), k.mem, k.ch[i]), k.ch[i].Count(), 0);
      DmaChannels(e, Kick(t.clk, t.mem, k.ch[i := t.c]), mask, i + 1)
  }

  function ExecuteDma(e: Env, k: Kick, mask: set<nat>): Kick {
    DmaChannels(e, k.(clk := AddMclk(k.clk, 12)), mask, 0)
  }

  // ---- Reference: a kick is a list of byte moves, cut short by the first fault ----

  datatype Move = Move(bank: byte, off: word, reg: byte, toA: bool)

  function Perform(e: Env, m: Mem, mv: Move): Mem {
    if mv.toA then
      var (v, m1) := BRead(e, m, mv.reg);
      AWrite(m1, mv.bank, mv.off, v)
    else BWrite(e, m, mv.reg, ARead(e, m, mv.bank, mv.off))
  }

  /** Memory after the moves, and how many of them completed. */
  function PerformAll(e: Env, m: Mem, moves: seq<Move>): (r: (Mem, nat))
    ensures r.1 <= |moves|
    ensures r.1 < |moves| ==> r.0.fault.Some?
    decreases moves
  {
    if moves == [] || m.fault.Some? then (m, 0)
    else
      var m1 := Perform(e, m, moves[0]);
      if m1.fault.Some? then (m1, 0)
      else
        var (m2, done) := PerformAll(e, m1, moves[1..]);
        (m2, done + 1)
  }

  /** The A address of byte `k`: fixed, counting down or counting up, within its bank. */
  function AOffset(c: DmaChannel, k: nat): word {
    if c.Fixed() then c.a1t
    else if c.Decrement() then (c.a1t - k) % 0x1_0000
    else (c.a1t + k) % 0x1_0000
  }

  /** The channel registers once `k` bytes are done. */
  function Moved(c: DmaChannel, k: nat): DmaChannel {
    c.(a1t := AOffset(c, k), das := (c.das - k) % 0x1_0000)
  }

  function MoveAt(c: DmaChannel, i: nat): Move {
    var pattern := UnitPattern(c.dmap);
    Move(c.a1b, AOffset(c, i), BReg(c.bbad, pattern[i % |pattern|]), c.BToA())
  }

  function Plan(c: DmaChannel): seq<Move> {
    seq(c.Count(), i requires 0 <= i => MoveAt(c, i))
  }

  function KickPlan(ch: Channels8, mask: set<nat>, i: nat): seq<Move>
    requires i <= 8
    decreases 8 - i, mask
  {
    if i == 8 then []
    else (if i in mask then Plan(ch[i]) else []) + KickPlan(ch, mask, i + 1)
  }

  /** The register file once the first `done` moves of the plan are complete. */
  function MovedAll(ch: Channels8, mask: set<nat>, i: nat, done: nat): Channels8
    requires i <= 8
    decreases 8 - i, mask
  {
    if i == 8 then ch
    else if i !in mask then MovedAll(ch, mask, i + 1, done)
    else
      var share := if done <= ch[i].Count() then done else ch[i].Count();
      MovedAll(ch[i := Moved(ch[i], share)], mask, i + 1, done - share)
  }

  function Enabled(mask: set<nat>, i: nat): nat
    requires i <= 8
    decreases 8 - i, mask
  {
    if i == 8 then 0 else (if i in mask then 1 else 0) + Enabled(mask, i + 1)
  }

  // ---- One channel ----

  lemma WrapStep(x: int)
    ensures (x + 1) % 0x1_0000 == (x % 0x1_0000 + 1) % 0x1_0000
    ensures (x - 1) % 0x1_0000 == (x % 0x1_0000 + 0xFFFF) % 0x1_0000
    ensures (x - 1) % 0x1_0000 == if x % 0x1_0000 == 0 then 0xFFFF else x % 0x1_0000 - 1
  {
  }

  lemma MovedStep(c: DmaChannel, k: nat)
    ensures StepRegisters(Moved(c, k)) == Moved(c, k + 1)
  {
    WrapStep(c.das - k);
    WrapStep(c.a1t - k);
    WrapStep(c.a1t + k);
    assert AOffset(c, k + 1) == StepRegisters(Moved(c, k)).a1t;
  }

  lemma PatternPosition(k: nat, n: nat)
    requires n == 1 || n == 2 || n == 4
    ensures (k % n + 1) % n == (k + 1) % n
    ensures k % n % n == k % n
  {
  }

  lemma MoveIsPlanned(e: Env, m: Mem, c: DmaChannel, k: nat)
    ensures MoveByte(e, m, Moved(c, k), MoveAt(c, k).reg) == Perform(e, m, MoveAt(c, k))
  {
  }

  /** Modes 5, 6 and 7 plan the same general transfer as modes 1, 2 and 3: the pattern is walked cyclically. */
  lemma AliasedModes(c: DmaChannel, d: DmaChannel)
    requires c.dmap % 8 >= 5 && d == c.(dmap := c.dmap - 4)
    ensures Plan(c) == Plan(d)
  {
    hide Bit, AOffset;
    AliasedDirection(c, d);
    var p, q := UnitPattern(c.dmap), UnitPattern(d.dmap);
    forall i: nat ensures p[i % |p|] == q[i % |q|] {
      assert i % 4 % 2 == i % 2;
    }
    assert forall i: nat {:trigger MoveAt(c, i)} :: MoveAt(c, i) == MoveAt(d, i);
  }

  lemma AliasedDirection(c: DmaChannel, d: DmaChannel)
    requires c.dmap % 8 >= 5 && d == c.(dmap := c.dmap - 4)
    ensures c.BToA() == d.BToA() && c.Fixed() == d.Fixed() && c.Decrement() == d.Decrement()
    ensures forall k: nat :: AOffset(c, k) == AOffset(d, k)
    ensures d.dmap % 8 == c.dmap % 8 - 4
  {
  }

  lemma PlanTail(c: DmaChannel, k: nat)
    requires k < c.Count()
    ensures Plan(c)[k..] == [MoveAt(c, k)] + Plan(c)[k + 1..]
  {
  }

  /** One iteration of the byte loop, `k` bytes in. */
  lemma DmaLoopStep(e: Env, t: Transfer, c: DmaChannel, k: nat)
    requires k < c.Count() && t.c == Moved(c, k) && t.mem.fault.None?
    ensures var n := |UnitPattern(c.dmap)|;
            var m := Perform(e, t.mem, MoveAt(c, k));
            DmaLoop(e, t, c.Count() - k, k % n)
            == if m.fault.Some? then t.(mem := m)
               else DmaLoop(e, Transfer(AddMclk(t.clk, 8), m, Moved(c, k + 1)), c.Count() - (k + 1), (k + 1) % n)
  {
    MoveIsPlanned(e, t.mem, c, k);
    MovedStep(c, k);
    PatternPosition(k, |UnitPattern(c.dmap)|);
  }

  lemma PerformAllStep(e: Env, m: Mem, mv: Move, rest: seq<Move>)
    requires m.fault.None?
    ensures var m1 := Perform(e, m, mv);
            PerformAll(e, m, [mv] + rest)
            == if m1.fault.Some? then (m1, 0)
               else var (m2, d) := PerformAll(e, m1, rest); (m2, d + 1)
  {
    assert ([mv] + rest)[1..] == rest;
  }

  function Eights(n: nat): (s: seq<nat>)
    ensures |s| == n
  {
    seq(n, _ => 8)
  }

  lemma TicksEights(c: Clock, n: nat)
    ensures Ticks(c, Eights(n + 1)) == Ticks(AddMclk(c, 8), Eights(n))
  {
    assert Eights(n + 1)[1..] == Eights(n);
  }

  /** From byte `k` on, the loop performs exactly the rest of the channel's plan. */
  lemma {:induction false} DmaLoopExact(e: Env, t: Transfer, c: DmaChannel, k: nat)
    requires k <= c.Count() && t.c == Moved(c, k)
    ensures var (m, done) := PerformAll(e, t.mem, Plan(c)[k..]);
            DmaLoop(e, t, c.Count() - k, k % |UnitPattern(c.dmap)|)
            == Transfer(Ticks(t.clk, Eights(done)), m, Moved(c, k + done))
    decreases c.Count() - k
  {
    hide MoveByte, Perform, AddMclk, Moved, MoveAt, UnitPattern;
    if k < c.Count() && t.mem.fault.None? {
      PlanTail(c, k);
      DmaLoopStep(e, t, c, k);
      PerformAllStep(e, t.mem, MoveAt(c, k), Plan(c)[k + 1..]);
      var m := Perform(e, t.mem, MoveAt(c, k));
      if m.fault.None? {
        DmaLoopExact(e, Transfer(AddMclk(t.clk, 8), m, Moved(c, k + 1)), c, k + 1);
        TicksEights(t.clk, PerformAll(e, m, Plan(c)[k + 1..]).1);
      }
    }
  }

  // ---- A whole kick ----

  lemma {:induction false} PerformAllAppend(e: Env, m: Mem, a: seq<Move>, b: seq<Move>)
    ensures var (m1, d1) := PerformAll(e, m, a);
            var (m2, d2) := PerformAll(e, m1, b);
            PerformAll(e, m, a + b) == (m2, d1 + d2)
    decreases a
  {
    if a == [] {
      assert a + b == b;
    } else if m.fault.None? {
      assert (a + b)[1..] == a[1..] + b;
      var m1 := Perform(e, m, a[0]);
      if m1.fault.None? {
        PerformAllAppend(e, m1, a[1..], b);
      }
    }
  }

  lemma PerformAllFaulted(e: Env, m: Mem, moves: seq<Move>)
    requires m.fault.Some?
    ensures PerformAll(e, m, moves) == (m, 0)
  {
  }

  lemma {:induction false} SumEights(n: nat)
    ensures Sum(Eights(n)) == 8 * n
  {
    if n > 0 {
      assert Eights(n)[1..] == Eights(n - 1);
      SumEights(n - 1);
    }
  }

  /** One channel's share of the clock, then the rest of the kick's. */
  lemma ChannelClock(c: Clock, d1: nat, after: Clock, rest: nat)
    requires Observable(after) == Observable(AddMclk(Ticks(AddMclk(c, 8), Eights(d1)), rest))
    ensures Observable(after) == Observable(AddMclk(c, 8 + 8 * d1 + rest))
  {
    var started := AddMclk(c, 8);
    SumEights(d1);
    PartitionInvariance(started, Eights(d1));
    AddMclkCompose(c, 8, 8 * d1);
    AddMclkObservable(Ticks(started, Eights(d1)), AddMclk(c, 8 + 8 * d1), rest);
    AddMclkCompose(c, 8 + 8 * d1, rest);
  }

  lemma {:induction false} MovedAllBelow(ch: Channels8, mask: set<nat>, i: nat, j: nat, done: nat)
    requires j < i <= 8
    ensures MovedAll(ch, mask, i, done)[j] == ch[j]
    decreases 8 - i, mask
  {
    if i < 8 {
      if i in mask {
        var share := if done <= ch[i].Count() then done else ch[i].Count();
        MovedAllBelow(ch[i := Moved(ch[i], share)], mask, i + 1, j, done - share);
      } else {
        MovedAllBelow(ch, mask, i + 1, j, done);
      }
    }
  }

  lemma {:induction false} KickPlanLocal(a: Channels8, b: Channels8, mask: set<nat>, i: nat)
    requires i <= 8 && forall j :: i <= j < 8 ==> a[j] == b[j]
    ensures KickPlan(a, mask, i) == KickPlan(b, mask, i)
    decreases 8 - i, mask
  {
    if i < 8 {
      KickPlanLocal(a, b, mask, i + 1);
    }
  }

  lemma MovedNone(c: DmaChannel)
    ensures Moved(c, 0) == c
  {
  }

  /** A channel whose plan stops short has faulted, so the channels after it move nothing. */
  lemma {:induction false} DmaChannelsExact(e: Env, k: Kick, mask: set<nat>, i: nat)
    requires i <= 8
    ensures KickExact(e, k, mask, i)
    decreases 8 - i, mask
  {
    hide AddMclk, Observable, Moved, MoveAt, Perform, DmaLoop;
    if i == 8 {
      AddMclkZero(k.clk);
    } else if i !in mask {
      DmaChannelsExact(e, k, mask, i + 1);
      assert KickPlan(k.ch, mask, i) == KickPlan(k.ch, mask, i + 1);
    } else {
      var c := k.ch[i];
      var t := Transfer(AddMclk(k.clk, 8), k.mem, c);
      MovedNone(c);
      DmaLoopExact(e, t, c, 0);
      assert Plan(c)[0..] == Plan(c);
      var (m1, d1) := PerformAll(e, k.mem, Plan(c));
      var k1 := Kick(Ticks(t.clk, Eights(d1)), m1, k.ch[i := Moved(c, d1)]);
      DmaChannelsExact(e, k1, mask, i + 1);
      KickPlanLocal(k.ch, k1.ch, mask, i + 1);
      KickJoin(e, k, mask, i, k1);
    }
  }

  ghost predicate KickExact(e: Env, k: Kick, mask: set<nat>, i: nat)
    requires i <= 8
  {
    var (m, done) := PerformAll(e, k.mem, KickPlan(k.ch, mask, i));
    var r := DmaChannels(e, k, mask, i);
    && r.mem == m
    && r.ch == MovedAll(k.ch, mask, i, done)
    && Observable(r.clk) == Observable(AddMclk(k.clk, 8 * Enabled(mask, i) + 8 * done))
  }

  lemma AddMclkZero(c: Clock)
    ensures AddMclk(c, 0) == c
  {
  }

  lemma KickJoin(e: Env, k: Kick, mask: set<nat>, i: nat, k1: Kick)
    requires i < 8 && i in mask
    requires var (m1, d1) := PerformAll(e, k.mem, Plan(k.ch[i]));
             k1 == Kick(Ticks(AddMclk(k.clk, 8), Eights(d1)), m1, k.ch[i := Moved(k.ch[i], d1)])
    requires DmaChannels(e, k, mask, i) == DmaChannels(e, k1, mask, i + 1)
    requires KickPlan(k.ch, mask, i + 1) == KickPlan(k1.ch, mask, i + 1)
    requires KickExact(e, k1, mask, i + 1)
    ensures KickExact(e, k, mask, i)
  {
    hide AddMclk, Observable, Moved, MoveAt, Perform, DmaLoop;
    var c := k.ch[i];
    var rest := KickPlan(k.ch, mask, i + 1);
    var (m1, d1) := PerformAll(e, k.mem, Plan(c));
    var (m2, d2) := PerformAll(e, m1, rest);
    PerformAllAppend(e, k.mem, Plan(c), rest);
    assert KickPlan(k.ch, mask, i) == Plan(c) + rest;
    if d1 < c.Count() {
      PerformAllFaulted(e, m1, rest);
    }
    assert MovedAll(k.ch, mask, i, d1 + d2) == MovedAll(k1.ch, mask, i + 1, d2);
    ChannelClock(k.clk, d1, DmaChannels(e, k1, mask, i + 1).clk, 8 * Enabled(mask, i + 1) + 8 * d2);
  }

  /**
   A kick performs the byte moves of its enabled channels in channel order, stopping at the first
   fault; every register ends where the completed moves left it, and the clock shows one advance
   of 12 + 8 per enabled channel + 8 per completed byte.
   */
  lemma ExecuteDmaExact(e: Env, k: Kick, mask: set<nat>)
    ensures var (m, done) := PerformAll(e, k.mem, KickPlan(k.ch, mask, 0));
            var r := ExecuteDma(e, k, mask);
            && r.mem == m
            && r.ch == MovedAll(k.ch, mask, 0, done)
            && Observable(r.clk) == Observable(AddMclk(k.clk, 12 + 8 * Enabled(mask, 0) + 8 * done))
  {
    hide AddMclk, Observable, Moved, Perform;
    DmaChannelsExact(e, k.(clk := AddMclk(k.clk, 12)), mask, 0);
    AddMclkCompose(k.clk, 12, 8 * Enabled(mask, 0) + 8 * PerformAll(e, k.mem, KickPlan(k.ch, mask, 0)).1);
  }
}
