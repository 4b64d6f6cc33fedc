/**
 HDMA on the bus: at most one transfer unit per channel and scanline, walked from a table.

 `out` is instrumentation: every B-bus write HDMA made, with the channel that made it.
 */
module Hdma {
  import opened Timing
  import opened Memory
  import opened Dma

  datatype HdmaState = HdmaState(active: bool, doTransfer: bool)
  const INACTIVE := HdmaState(false, false)

  type States8 = s: seq<HdmaState> | |s| == 8 ghost witness seq(8, _ => INACTIVE)

  datatype Sent = Sent(ch: nat, reg: byte, value: byte)

  datatype Hub = Hub(mem: Mem, ch: Channels8, state: States8, hdmaen: set<nat>, ended: set<nat>, out: seq<Sent>)

  function NextWord(w: word): word { (w + 1) % 0x1_0000 }

  /** Reads the table header at A2A: the line counter and, in indirect mode, the data address. */
  function LoadEntry(e: Env, b: Hub, i: nat): Hub
    requires i < 8
  {
    var c := b.ch[i];
    var count := ARead(e, b.mem, c.a1b, c.a2a);
    var p := NextWord(c.a2a);
    var c1 := c.(a2a := p, ntrl := count);
    if count == 0 then b.(ch := b.ch[i := c1], ended := b.ended + {i}, state := b.state[i := INACTIVE])
    else if c.Indirect() then
      var lo := ARead(e, b.mem, c.a1b, p);
      var hi := ARead(e, b.mem, c.a1b, NextWord(p));
      b.(ch := b.ch[i := c1.(a2a := NextWord(NextWord(p)), das := lo + hi * 0x100)],
         state := b.state[i := HdmaState(true, true)])
    else b.(ch := b.ch[i := c1], state := b.state[i := HdmaState(true, true)])
  }

  /** Bytes `p..` of one transfer unit; stops at a fault, the pointer already past the byte. */
  function MoveUnit(e: Env, b: Hub, i: nat, p: nat): Hub
    requires i < 8
    decreases |UnitPattern(b.ch[i].dmap)| - p
  {
    var c := b.ch[i];
    if p >= |UnitPattern(c.dmap)| then b
    else
      var b1 := MoveUnitByte(e, b, i, p);
      if b1.mem.fault.Some? then b1 else MoveUnit(e, b1, i, p + 1)
  }

  function MoveUnitByte(e: Env, b: Hub, i: nat, p: nat): (r: Hub)
    requires i < 8 && p < |UnitPattern(b.ch[i].dmap)|
    ensures r.ch[i].dmap == b.ch[i].dmap
  {
    var c := b.ch[i];
    var reg := BReg(c.bbad, UnitPattern(c.dmap)[p]);
    var v := if c.Indirect() then ARead(e, b.mem, c.dasb, c.das) else ARead(e, b.mem, c.a1b, c.a2a);
    b.(mem := BWrite(e, b.mem, reg, v),
       ch := b.ch[i := if c.Indirect() then c.(das := NextWord(c.das)) else c.(a2a := NextWord(c.a2a))],
       out := b.out + [Sent(i, reg, v)])
  }

  /** The raw counter decrement that closes a channel's line. */
  function CloseLine(e: Env, b: Hub, i: nat): Hub
    requires i < 8
  {
    var n: byte := (b.ch[i].ntrl + 0xFF) % 0x100;
    var b1 := b.(ch := b.ch[i := b.ch[i].(ntrl := n)]);
    if n % 0x80 == 0 then LoadEntry(e, b1, i)
    else b1.(state := b1.state[i := b1.state[i].(doTransfer := n >= 0x80)])
  }

  predicate Serviced(b: Hub, i: nat)
    requires i < 8
  {
    i in b.hdmaen && b.state[i].active
  }

  function ServiceChannel(e: Env, b: Hub, i: nat): Hub
    requires i < 8
  {
    var b1 := if b.state[i].doTransfer then MoveUnit(e, b, i, 0) else b;
    if b1.mem.fault.Some? then b1 else CloseLine(e, b1, i)
  }

  /** Channels `i..8` of one scanline. */
  function HdmaChannels(e: Env, b: Hub, i: nat): Hub
    requires i <= 8
    decreases 8 - i, b.ended
  {
    if i == 8 then b
    else if !Serviced(b, i) then HdmaChannels(e, b, i + 1)
    else if b.mem.fault.Some? then b
    else HdmaChannels(e, ServiceChannel(e, b, i), i + 1)
  }

  function ExecuteHdma(e: Env, b: Hub): Hub { HdmaChannels(e, b, 0) }

  /** Once faulted, nothing more of the line happens. */
  lemma {:induction false} FaultSticks(e: Env, b: Hub, i: nat)
    requires i <= 8 && b.mem.fault.Some?
    ensures HdmaChannels(e, b, i) == b
    decreases 8 - i
  {
    if i < 8 && !Serviced(b, i) {
      FaultSticks(e, b, i + 1);
    }
  }

  function InitChannels(e: Env, b: Hub, i: nat): Hub
    requires i <= 8
    decreases 8 - i, b.ended
  {
    if i == 8 then b
    else if i !in b.hdmaen then InitChannels(e, b.(state := b.state[i := INACTIVE]), i + 1)
    else InitChannels(e, LoadEntry(e, b.(ch := b.ch[i := b.ch[i].(a2a := b.ch[i].a1t)]), i), i + 1)
  }

  /** Frame start: every enabled channel restarts its table at A1T. */
  function InitHdma(e: Env, b: Hub): Hub { InitChannels(e, b.(ended := {}), 0) }

  /** A $420C write: newly set channels resume where they are, unless their table has ended. */
  function WriteHdmaen(b: Hub, mask: set<nat>): Hub {
    b.(hdmaen := mask,
       state := seq(8, i requires 0 <= i < 8 => Resumed(b.state[i], i in mask && i !in b.hdmaen && i !in b.ended)))
  }

  /** Enabling a channel touches `active` only: a transfer in flight stays due. */
  function Resumed(s: HdmaState, enable: bool): HdmaState { if enable then s.(active := true) else s }
}
