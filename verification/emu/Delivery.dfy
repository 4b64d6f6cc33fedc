/**
 Which byte goes where, from the register values alone: the direction is DMAP bit 7, the step of the
 A address bits 4-3, and the register order of a transfer unit the mode in bits 2-0.
 */
module Delivery {
  import opened Timing
  import opened Clock
  import opened Memory
  import opened Dma
  import opened DmaResults
  import opened Hdma
  import opened HdmaTable

  // ---- The reference: arithmetic on the register values ----

  /** The register byte `i` of a transfer addresses, counted from BBAD. */
  function UnitOffset(mode: nat, i: nat): nat
    requires mode < 8
  {
    if mode == 0 || mode == 2 || mode == 6 then 0
    else if mode == 1 || mode == 5 then i % 2
    else if mode == 3 || mode == 7 then i / 2 % 2
    else i % 4
  }

  /** How many bytes one unit has. */
  function UnitBytes(mode: nat): nat
    requires mode < 8
  {
    if mode == 0 then 1 else if mode == 1 || mode == 2 || mode == 6 then 2 else 4
  }

  function Register(c: DmaChannel, i: nat): byte { (c.bbad + UnitOffset(c.dmap % 8, i)) % 0x100 }

  /** Bit 3 holds the A address, bit 4 counts it down, and otherwise it counts up; the bank never changes. */
  function SourceOffset(c: DmaChannel, i: nat): word {
    if c.dmap / 8 % 2 == 1 then c.a1t
    else if c.dmap / 16 % 2 == 1 then (c.a1t - i) % 0x1_0000
    else (c.a1t + i) % 0x1_0000
  }

  function Length(c: DmaChannel): nat { if c.das == 0 then 0x1_0000 else c.das }

  // ---- General DMA ----

  lemma PatternOffset(dmap: byte, i: nat)
    ensures UnitPattern(dmap)[i % |UnitPattern(dmap)|] == UnitOffset(dmap % 8, i)
    ensures |UnitPattern(dmap)| == UnitBytes(dmap % 8)
  {
    if dmap % 8 == 3 || dmap % 8 == 7 { assert i % 4 / 2 == i / 2 % 2; }
  }

  lemma PlannedMove(c: DmaChannel, i: nat)
    requires i < Length(c)
    ensures Length(c) == c.Count()
    ensures MoveAt(c, i) == Move(c.a1b, SourceOffset(c, i), Register(c, i), c.dmap >= 0x80)
  {
    hide UnitPattern, UnitOffset;
    PatternOffset(c.dmap, i);
  }

  /** Where channel `j`'s bytes start in the plan of a kick: after those of the enabled channels below it. */
  function Earlier(ch: Channels8, mask: set<nat>, j: nat): nat
    requires j <= 8
  {
    if j == 0 then 0 else Earlier(ch, mask, j - 1) + (if j - 1 in mask then Length(ch[j - 1]) else 0)
  }

  lemma {:induction false} BeforeExtends(ch: Channels8, mask: set<nat>, i: nat, j: nat)
    requires i <= j < 8
    ensures Before(ch, mask, i, j + 1) == Before(ch, mask, i, j) + (if j in mask then ch[j].Count() else 0)
    decreases j - i
  {
    if i < j { BeforeExtends(ch, mask, i + 1, j); }
  }

  lemma {:induction false} EarlierIsBefore(ch: Channels8, mask: set<nat>, j: nat)
    requires j <= 8
    ensures Earlier(ch, mask, j) == Before(ch, mask, 0, j)
    decreases j
  {
    if j > 0 {
      EarlierIsBefore(ch, mask, j - 1);
      BeforeExtends(ch, mask, 0, j - 1);
    }
  }

  lemma {:induction false} PlanAt(ch: Channels8, mask: set<nat>, i: nat, j: nat, f: nat)
    requires i <= j < 8 && j in mask && f < ch[j].Count()
    ensures var at := Before(ch, mask, i, j) + f;
            at < |KickPlan(ch, mask, i)| && KickPlan(ch, mask, i)[at] == MoveAt(ch[j], f)
    decreases 8 - i
  {
    hide MoveAt;
    if i == j {
      assert KickPlan(ch, mask, i)[f] == Plan(ch[i])[f];
    } else {
      PlanAt(ch, mask, i + 1, j, f);
      var own := if i in mask then ch[i].Count() else 0;
      assert |if i in mask then Plan(ch[i]) else []| == own;
    }
  }

  /** Byte `f` of channel `j` is one move of the kick: this A address, this register, this direction. */
  lemma KickByte(ch: Channels8, mask: set<nat>, j: nat, f: nat)
    requires j < 8 && j in mask && f < Length(ch[j])
    ensures var plan, at := KickPlan(ch, mask, 0), Earlier(ch, mask, j) + f;
            && at < |plan| == Earlier(ch, mask, 8)
            && plan[at] == Move(ch[j].a1b, SourceOffset(ch[j], f), Register(ch[j], f), ch[j].dmap >= 0x80)
  {
    hide KickPlan, MoveAt, SourceOffset, Register;
    PlannedMove(ch[j], f);
    EarlierIsBefore(ch, mask, j);
    EarlierIsBefore(ch, mask, 8);
    KickPlanLength(ch, mask, 0);
    PlanAt(ch, mask, 0, j, f);
  }

  /** From A to B, with every register of the unit on the picture or the sound chip. */
  predicate ToDevices(c: DmaChannel) {
    c.dmap < 0x80 && forall i :: 0 <= i < 4 ==> Register(c, i) <= 0x33 || 0x40 <= Register(c, i) <= 0x7F
  }

  lemma ToDevicesAims(c: DmaChannel)
    requires ToDevices(c)
    ensures AimsAtDevice(c)
  {
    hide UnitPattern, UnitOffset;
    forall p | 0 <= p < |UnitPattern(c.dmap)|
      ensures BReg(c.bbad, UnitPattern(c.dmap)[p]) == Register(c, p)
    {
      PatternOffset(c.dmap, p);
    }
    PatternOffset(c.dmap, 0);
  }

  /** What a device is sent for a byte on a register. */
  function Arrival(reg: byte, v: byte): DevEvent { if reg <= 0x33 then PpuWrite(reg, v) else ApuWrite(reg % 4, v) }

  /**
   The delivery law: a fault-free kick of channels aimed at devices appends one event per byte, channel
   after channel. Byte `f` of channel `j` goes to the register its mode names for `f`, and carries what
   the A bus held at its own address when the kick began.
   */
  lemma DeliveredByte(e: Env, k: Kick, mask: set<nat>, j: nat, f: nat)
    requires forall i :: 0 <= i < 8 && i in mask ==> ToDevices(k.ch[i])
    requires k.mem.fault.None? && ExecuteDma(e, k, mask).mem.fault.None?
    requires j < 8 && j in mask && f < Length(k.ch[j])
    ensures var log, at := ExecuteDma(e, k, mask).mem.log, |k.mem.log| + Earlier(k.ch, mask, j) + f;
            && |log| == |k.mem.log| + Earlier(k.ch, mask, 8) && at < |log|
            && log[..|k.mem.log|] == k.mem.log
            && log[at] == Arrival(Register(k.ch[j], f), ARead(e, k.mem, k.ch[j].a1b, SourceOffset(k.ch[j], f)))
  {
    hide ExecuteDma, KickPlan, ARead, ToDevices, AimsAtDevice, Register, SourceOffset;
    forall i | 0 <= i < 8 && i in mask ensures AimsAtDevice(k.ch[i]) { ToDevicesAims(k.ch[i]); }
    KickDelivers(e, k, mask);
    KickByte(k.ch, mask, j, f);
  }

  /** The ordinary VRAM upload, DMAP = $01 on $18: even bytes to $2118 and odd ones to $2119. */
  lemma VramUpload(e: Env, k: Kick, j: nat, f: nat)
    requires j < 8 && k.ch[j].dmap == 1 && k.ch[j].bbad == 0x18 && f < Length(k.ch[j])
    requires k.mem.fault.None? && ExecuteDma(e, k, {j}).mem.fault.None?
    ensures var c := k.ch[j];
            var log := ExecuteDma(e, k, {j}).mem.log;
            && |k.mem.log| + f < |log|
            && log[|k.mem.log| + f] == PpuWrite(if f % 2 == 0 then 0x18 else 0x19,
                                               ARead(e, k.mem, c.a1b, (c.a1t + f) % 0x1_0000))
  {
    hide ExecuteDma, ARead, Earlier;
    assert ToDevices(k.ch[j]);
    NoneEarlier(k.ch, j, j);
    DeliveredByte(e, k, {j}, j, f);
  }

  lemma {:induction false} NoneEarlier(ch: Channels8, j: nat, i: nat)
    requires i <= j < 8
    ensures Earlier(ch, {j}, i) == 0
    decreases i
  {
    if i > 0 { NoneEarlier(ch, j, i - 1); }
  }

  /** From B to A a move stores what the register gives, at the byte's own address. */
  lemma FetchedByte(e: Env, m: Mem, ch: Channels8, mask: set<nat>, j: nat, f: nat)
    requires j < 8 && j in mask && f < Length(ch[j]) && ch[j].dmap >= 0x80
    ensures var plan, at := KickPlan(ch, mask, 0), Earlier(ch, mask, j) + f;
            var (v, m1) := BRead(e, m, Register(ch[j], f));
            at < |plan| && Perform(e, m, plan[at]) == AWrite(m1, ch[j].a1b, SourceOffset(ch[j], f), v)
  {
    hide BRead, AWrite, KickPlan, Register, SourceOffset;
    KickByte(ch, mask, j, f);
  }

  // ---- HDMA units ----

  /** Bit 6 of DMAP takes the data from DASB:DAS instead of the table. */
  function DataByte(rd: Image, c: DmaChannel, start: word, i: nat): byte {
    rd(if c.dmap / 64 % 2 == 1 then c.dasb else c.a1b, (start + i) % 0x1_0000)
  }

  /** A unit is as long as its mode says, and its byte `i` goes to the same register as byte `i` of a general DMA. */
  lemma UnitByte(rd: Image, c: DmaChannel, start: word, i: nat)
    ensures |UnitWrites(rd, c, start)| == UnitBytes(c.dmap % 8)
    ensures i < UnitBytes(c.dmap % 8) ==>
              UnitWrites(rd, c, start)[i] == Write(Register(c, i), DataByte(rd, c, start, i))
  {
    hide UnitPattern, UnitOffset, UnitBytes;
    PatternOffset(c.dmap, i);
    if i < UnitBytes(c.dmap % 8) {
      SmallRest(i, |UnitPattern(c.dmap)|);
      assert UnitPattern(c.dmap)[i] == UnitOffset(c.dmap % 8, i);
      assert BReg(c.bbad, UnitPattern(c.dmap)[i]) == Register(c, i);
      assert rd(DataBank(c), Plus(start, i)) == DataByte(rd, c, start, i);
    }
  }

  lemma SmallRest(i: nat, n: nat)
    requires i < n
    ensures i % n == i
  {
  }
}
