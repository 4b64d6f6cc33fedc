/**
 HDMA over a whole frame: eight channels sharing the bus, $420C writes between lines, and arbitrary
 other bus activity. Each channel still sends exactly what its table says, one table line per
 scanline that serviced it.
 */
module HdmaTrace {
  import opened Timing
  import opened Memory
  import opened Dma
  import opened Hdma
  import opened HdmaTable

  /** A set of A-bus addresses: those a channel's table and data occupy. */
  type Region = iset<(byte, word)>

  /** The A bus shows `rd` on the whole region. */
  ghost predicate Calm(e: Env, m: Mem, r: Region, rd: Image) {
    forall bank: byte, off: word :: (bank, off) in r ==> ARead(e, m, bank, off) == rd(bank, off)
  }

  ghost predicate HeaderIn(r: Region, rd: Image, c: DmaChannel, p: word) {
    && (c.a1b, p) in r
    && (c.Indirect() && Count(rd, c, p) != 0 ==> (c.a1b, Plus(p, 1)) in r && (c.a1b, Plus(p, 2)) in r)
  }

  ghost predicate UnitIn(r: Region, c: DmaChannel, start: word) {
    forall k :: 0 <= k < UnitLen(c) ==> (DataBank(c), Plus(start, k)) in r
  }

  /** The region holds every table and data byte that `lines` lines from the entry at `p` read. */
  ghost predicate Covers(r: Region, rd: Image, c: DmaChannel, p: word, lines: nat)
    decreases lines
  {
    var count := Count(rd, c, p);
    && HeaderIn(r, rd, c, p)
    && (count != 0 ==>
        && (forall l: nat :: l < lines && l < EntryLines(count) && (l == 0 || Repeats(count))
              ==> UnitIn(r, c, UnitStart(rd, c, p, l)))
        && (EntryLines(count) <= lines ==> Covers(r, rd, c, NextEntry(rd, c, p), lines - EntryLines(count))))
  }

  /** What the channel reads on its next serviced line lies in the region. */
  ghost predicate ReadsIn(r: Region, rd: Image, a: Auto) {
    a.h.active ==>
      && (a.h.doTransfer ==> UnitIn(r, a.c, Pointer(a.c)))
      && ((a.c.ntrl + 0xFF) % 0x80 == 0 ==>
          HeaderIn(r, rd, a.c, if a.h.doTransfer && !a.c.Indirect() then Plus(a.c.a2a, UnitLen(a.c)) else a.c.a2a))
  }

  lemma {:induction false} CoversLocal(r: Region, rd: Image, c: DmaChannel, d: DmaChannel, p: word, lines: nat)
    requires SameSetup(c, d) && Covers(r, rd, c, p, lines)
    ensures Covers(r, rd, d, p, lines)
    decreases lines
  {
    var count := Count(rd, c, p);
    if count != 0 {
      forall l: nat | l < lines && l < EntryLines(count) && (l == 0 || Repeats(count))
        ensures UnitIn(r, d, UnitStart(rd, d, p, l))
      {
        assert UnitIn(r, c, UnitStart(rd, c, p, l));
        assert UnitStart(rd, c, p, l) == UnitStart(rd, d, p, l);
      }
      if EntryLines(count) <= lines {
        CoversLocal(r, rd, c, d, NextEntry(rd, c, p), lines - EntryLines(count));
        assert NextEntry(rd, c, p) == NextEntry(rd, d, p);
      }
    }
  }

  lemma ReadsWithinEntry(r: Region, rd: Image, c: DmaChannel, p: word, l: nat, lines: nat)
    requires Covers(r, rd, c, p, lines) && l < lines
    requires Count(rd, c, p) != 0 && l < EntryLines(Count(rd, c, p))
    ensures ReadsIn(r, rd, At(rd, c, p, l))
  {
    var count := Count(rd, c, p);
    var w := WithinEntry(rd, c, p, l);
    if l == 0 || Repeats(count) {
      assert UnitIn(r, c, UnitStart(rd, c, p, l));
      assert UnitIn(r, w, Pointer(w));
      UnitAdvance(rd, c, p, l);
    } else {
      IdleLine(rd, c, p, l);
    }
    if l + 1 == EntryLines(count) {
      EntryEnd(rd, c, p);
      assert HeaderIn(r, rd, c, NextEntry(rd, c, p));
      assert HeaderIn(r, rd, w, NextEntry(rd, c, p));
    }
  }

  lemma {:induction false} CoversReads(r: Region, rd: Image, c: DmaChannel, p: word, l: nat, lines: nat)
    requires Covers(r, rd, c, p, lines) && l < lines
    ensures ReadsIn(r, rd, At(rd, c, p, l))
    decreases l
  {
    var count := Count(rd, c, p);
    if count == 0 {
    } else if l < EntryLines(count) {
      ReadsWithinEntry(r, rd, c, p, l, lines);
    } else {
      var n := EntryLines(count);
      var d := WithinEntry(rd, c, p, n);
      WithinSetup(rd, c, p, n);
      CoversLocal(r, rd, c, d, NextEntry(rd, c, p), lines - n);
      CoversReads(r, rd, d, NextEntry(rd, c, p), l - n, lines - n);
    }
  }

  // ---- One channel on the bus ----

  function Proj(b: Hub, j: nat): Auto
    requires j < 8
  {
    Auto(b.ch[j], b.state[j], j in b.ended)
  }

  function SentBy(out: seq<Sent>, j: nat): seq<Write> {
    if out == [] then []
    else
      var last := out[|out| - 1];
      SentBy(out[..|out| - 1], j) + (if last.ch == j then [Write(last.reg, last.value)] else [])
  }

  lemma SentByAppend(out: seq<Sent>, s: Sent, j: nat)
    ensures SentBy(out + [s], j) == SentBy(out, j) + (if s.ch == j then [Write(s.reg, s.value)] else [])
  {
    assert (out + [s])[..|out|] == out;
  }

  /** The region stays calm before and after every byte of the rest of a unit. */
  ghost predicate CalmUnit(e: Env, b: Hub, i: nat, p: nat, r: Region, rd: Image)
    requires i < 8
    decreases UnitLen(b.ch[i]) - p
  {
    && Calm(e, b.mem, r, rd)
    && (p < UnitLen(b.ch[i]) ==> CalmUnit(e, MoveUnitByte(e, b, i, p), i, p + 1, r, rd))
  }

  /** ... and of every channel's unit in the rest of a line. */
  ghost predicate CalmLine(e: Env, b: Hub, i: nat, r: Region, rd: Image)
    requires i <= 8
    decreases 8 - i, b.ended
  {
    && Calm(e, b.mem, r, rd)
    && (i < 8 ==>
        if Serviced(b, i) then
          && (b.state[i].doTransfer ==> CalmUnit(e, b, i, 0, r, rd))
          && CalmLine(e, ServiceChannel(e, b, i), i + 1, r, rd)
        else CalmLine(e, b, i + 1, r, rd))
  }

  lemma LoadOnBus(e: Env, b: Hub, j: nat, r: Region, rd: Image)
    requires j < 8 && Calm(e, b.mem, r, rd) && HeaderIn(r, rd, b.ch[j], b.ch[j].a2a)
    ensures Proj(LoadEntry(e, b, j), j) == AutoLoad(rd, Proj(b, j))
  {
    var c := b.ch[j];
    assert NextWord(c.a2a) == Plus(c.a2a, 1) && NextWord(NextWord(c.a2a)) == Plus(c.a2a, 2);
    assert (c.a1b, c.a2a) in r;
  }

  lemma LoadKeeps(e: Env, b: Hub, i: nat)
    requires i < 8
    ensures var b1 := LoadEntry(e, b, i);
            && b1.mem == b.mem && b1.out == b.out && b1.hdmaen == b.hdmaen
            && forall j: nat :: j < 8 && j != i ==> Proj(b1, j) == Proj(b, j)
  {
  }

  lemma ByteOnBus(e: Env, b: Hub, j: nat, p: nat, r: Region, rd: Image)
    requires j < 8 && p < UnitLen(b.ch[j]) && Calm(e, b.mem, r, rd)
    requires (DataBank(b.ch[j]), Pointer(b.ch[j])) in r
    ensures var b1 := MoveUnitByte(e, b, j, p);
            var (c, w) := AutoByte(rd, b.ch[j], p);
            && b1.ch == b.ch[j := c]
            && b1.out == b.out + [Sent(j, w.reg, w.value)]
            && b1.state == b.state && b1.ended == b.ended && b1.hdmaen == b.hdmaen
  {
  }

  lemma {:induction false} UnitOnBus(e: Env, b: Hub, j: nat, p: nat, start: word, r: Region, rd: Image)
    requires j < 8 && p <= UnitLen(b.ch[j]) && CalmUnit(e, b, j, p, r, rd)
    requires UnitIn(r, b.ch[j], start) && Pointer(b.ch[j]) == Plus(start, p)
    requires MoveUnit(e, b, j, p).mem.fault.None?
    ensures var b1 := MoveUnit(e, b, j, p);
            var (c, ws) := AutoUnit(rd, b.ch[j], p);
            && b1.ch == b.ch[j := c]
            && SentBy(b1.out, j) == SentBy(b.out, j) + ws
            && b1.state == b.state && b1.ended == b.ended && b1.hdmaen == b.hdmaen
    decreases UnitLen(b.ch[j]) - p
  {
    hide Calm, MoveUnitByte, AutoByte, Plus, SentBy, UnitPattern;
    if p < UnitLen(b.ch[j]) {
      var b1 := MoveUnitByte(e, b, j, p);
      var (c, w) := AutoByte(rd, b.ch[j], p);
      assert (DataBank(b.ch[j]), Plus(start, p)) in r;
      ByteOnBus(e, b, j, p, r, rd);
      SentByAppend(b.out, Sent(j, w.reg, w.value), j);
      BytePointer(rd, b.ch[j], p, start);
      UnitOnBus(e, b1, j, p + 1, start, r, rd);
      OneMore(SentBy(b.out, j), w, AutoUnit(rd, c, p + 1).1);
      SetTwice(b.ch, j, c, AutoUnit(rd, c, p + 1).0);
    } else {
      assert b.ch[j := b.ch[j]] == b.ch;
    }
  }

  lemma OneMore(sent: seq<Write>, w: Write, ws: seq<Write>)
    ensures sent + [w] + ws == sent + ([w] + ws)
  {
  }

  lemma SetTwice(ch: Channels8, j: nat, c: DmaChannel, d: DmaChannel)
    requires j < 8
    ensures ch[j := c][j := d] == ch[j := d]
  {
  }

  lemma BytePointer(rd: Image, c: DmaChannel, p: nat, start: word)
    requires p < UnitLen(c) && Pointer(c) == Plus(start, p)
    ensures var d := AutoByte(rd, c, p).0;
            && Pointer(d) == Plus(start, p + 1) && SameSetup(c, d)
            && DataBank(d) == DataBank(c) && UnitLen(d) == UnitLen(c)
  {
    WrapNext(start, p);
  }

  /** Another channel's unit touches neither this channel's state nor its output. */
  lemma {:induction false} OtherUnit(e: Env, b: Hub, i: nat, p: nat, j: nat)
    requires i < 8 && j < 8 && i != j
    ensures var b1 := MoveUnit(e, b, i, p);
            && Proj(b1, j) == Proj(b, j) && SentBy(b1.out, j) == SentBy(b.out, j) && b1.hdmaen == b.hdmaen
    decreases UnitLen(b.ch[i]) - p
  {
    if p < UnitLen(b.ch[i]) {
      var b1 := MoveUnitByte(e, b, i, p);
      SentByAppend(b.out, b1.out[|b.out|], j);
      assert b1.out == b.out + [b1.out[|b.out|]];
      OtherUnit(e, b1, i, p + 1, j);
    }
  }

  lemma OtherChannel(e: Env, b: Hub, i: nat, j: nat)
    requires i < 8 && j < 8 && i != j
    ensures var b1 := ServiceChannel(e, b, i);
            && Proj(b1, j) == Proj(b, j) && SentBy(b1.out, j) == SentBy(b.out, j) && b1.hdmaen == b.hdmaen
  {
    hide MoveUnit, LoadEntry, SentBy;
    OtherUnit(e, b, i, 0, j);
    var b1 := if b.state[i].doTransfer then MoveUnit(e, b, i, 0) else b;
    var b2 := b1.(ch := b1.ch[i := b1.ch[i].(ntrl := (b1.ch[i].ntrl + 0xFF) % 0x100)]);
    LoadKeeps(e, b2, i);
  }

  lemma CloseOnBus(e: Env, b: Hub, j: nat, r: Region, rd: Image)
    requires j < 8 && Calm(e, b.mem, r, rd)
    requires (b.ch[j].ntrl + 0xFF) % 0x80 == 0 ==> HeaderIn(r, rd, b.ch[j], b.ch[j].a2a)
    ensures Proj(CloseLine(e, b, j), j) == AutoClose(rd, Proj(b, j))
    ensures CloseLine(e, b, j).out == b.out && CloseLine(e, b, j).hdmaen == b.hdmaen && CloseLine(e, b, j).mem == b.mem
  {
    hide LoadEntry, AutoLoad, Calm;
    var n: byte := (b.ch[j].ntrl + 0xFF) % 0x100;
    var b1 := b.(ch := b.ch[j := b.ch[j].(ntrl := n)]);
    LoadKeeps(e, b1, j);
    if n % 0x80 == 0 {
      LoadOnBus(e, b1, j, r, rd);
    }
  }

  lemma {:induction false} CalmAfterUnit(e: Env, b: Hub, i: nat, p: nat, r: Region, rd: Image)
    requires i < 8 && CalmUnit(e, b, i, p, r, rd) && MoveUnit(e, b, i, p).mem.fault.None?
    ensures Calm(e, MoveUnit(e, b, i, p).mem, r, rd)
    decreases UnitLen(b.ch[i]) - p
  {
    if p < UnitLen(b.ch[i]) {
      CalmAfterUnit(e, MoveUnitByte(e, b, i, p), i, p + 1, r, rd);
    }
  }

  /** The unit loop leaves a direct channel's A2A behind the unit and an indirect one's alone. */
  lemma UnitPointer(rd: Image, c: DmaChannel)
    ensures var d := AutoUnit(rd, c, 0).0;
            SameSetup(c, d) && d.ntrl == c.ntrl && d.a2a == if c.Indirect() then c.a2a else Plus(c.a2a, UnitLen(c))
  {
    assert Plus(Pointer(c), 0) == Pointer(c);
    AutoUnitExact(rd, c, Pointer(c), 0);
  }

  lemma OwnChannel(e: Env, b: Hub, j: nat, r: Region, rd: Image)
    requires j < 8 && b.state[j].active && Calm(e, b.mem, r, rd)
    requires b.state[j].doTransfer ==> CalmUnit(e, b, j, 0, r, rd)
    requires ReadsIn(r, rd, Proj(b, j)) && ServiceChannel(e, b, j).mem.fault.None?
    ensures var b1 := ServiceChannel(e, b, j);
            && (Proj(b1, j), SentBy(b1.out, j))
               == (AutoLine(rd, Proj(b, j)).0, SentBy(b.out, j) + AutoLine(rd, Proj(b, j)).1)
            && b1.hdmaen == b.hdmaen
  {
    hide MoveUnit, CalmUnit, Calm, CloseLine, AutoClose, AutoUnit, SentBy;
    var c := b.ch[j];
    if b.state[j].doTransfer {
      assert Plus(Pointer(c), 0) == Pointer(c);
      assert MoveUnit(e, b, j, 0).mem.fault.None? by { CloseKeepsFault(e, MoveUnit(e, b, j, 0), j); }
      UnitOnBus(e, b, j, 0, Pointer(c), r, rd);
      CalmAfterUnit(e, b, j, 0, r, rd);
      UnitPointer(rd, c);
      CloseOnBus(e, MoveUnit(e, b, j, 0), j, r, rd);
    } else {
      assert SentBy(b.out, j) + [] == SentBy(b.out, j);
      CloseOnBus(e, b, j, r, rd);
    }
  }

  lemma CloseKeepsFault(e: Env, b: Hub, i: nat)
    requires i < 8
    ensures CloseLine(e, b, i).mem == b.mem
  {
  }

  /** One scanline, seen from channel `j`. */
  lemma {:induction false} LineOnBus(e: Env, b: Hub, i: nat, j: nat, r: Region, rd: Image)
    requires i <= 8 && j < 8 && CalmLine(e, b, i, r, rd)
    requires HdmaChannels(e, b, i).mem.fault.None?
    requires i <= j && j in b.hdmaen ==> ReadsIn(r, rd, Proj(b, j))
    ensures var b1 := HdmaChannels(e, b, i);
            var (a, ws) := if i <= j && j in b.hdmaen then AutoLine(rd, Proj(b, j)) else (Proj(b, j), []);
            && Proj(b1, j) == a && SentBy(b1.out, j) == SentBy(b.out, j) + ws && b1.hdmaen == b.hdmaen
    decreases 8 - i
  {
    hide ServiceChannel, AutoUnit, AutoClose, ReadsIn, CalmUnit, Calm, SentBy;
    if i == 8 {
      assert SentBy(b.out, j) + [] == SentBy(b.out, j);
    } else if !Serviced(b, i) {
      LineOnBus(e, b, i + 1, j, r, rd);
    } else {
      if b.mem.fault.Some? { FaultSticks(e, b, i); }
      var b1 := ServiceChannel(e, b, i);
      if b1.mem.fault.Some? { FaultSticks(e, b1, i + 1); }
      if i == j {
        OwnChannel(e, b, j, r, rd);
      } else {
        OtherChannel(e, b, i, j);
      }
      LineOnBus(e, b1, i + 1, j, r, rd);
      assert SentBy(b1.out, j) + [] == SentBy(b1.out, j);
    }
  }

  // ---- A frame's worth of lines, mask writes and other activity ----

  datatype FrameOp =
    | Line
    | MaskWrite(mask: set<nat>)
    | Other(next: Hub)

  function StepOp(e: Env, b: Hub, op: FrameOp): Hub {
    match op
    case Line => ExecuteHdma(e, b)
    case MaskWrite(mask) => WriteHdmaen(b, mask)
    case Other(next) => next
  }

  /**
   A step the table result allows: no fault on a line and the channel's table and data bytes calm
   throughout it; other activity leaves the channel's registers and HDMA state alone.
   */
  ghost predicate StepAllowed(e: Env, b: Hub, op: FrameOp, j: nat, r: Region, rd: Image)
    requires j < 8
  {
    match op
    case Line => ExecuteHdma(e, b).mem.fault.None? && CalmLine(e, b, 0, r, rd)
    case MaskWrite(_) => true
    case Other(next) => Proj(next, j) == Proj(b, j) && next.out == b.out && next.hdmaen == b.hdmaen
  }

  function RunOps(e: Env, b: Hub, ops: seq<FrameOp>): Hub
    decreases ops
  {
    if ops == [] then b else RunOps(e, StepOp(e, b, ops[0]), ops[1..])
  }

  ghost predicate OpsAllowed(e: Env, b: Hub, ops: seq<FrameOp>, j: nat, r: Region, rd: Image)
    requires j < 8
    decreases ops
  {
    ops == [] || (StepAllowed(e, b, ops[0], j, r, rd) && OpsAllowed(e, StepOp(e, b, ops[0]), ops[1..], j, r, rd))
  }

  /** Scanlines on which the channel's $420C bit was set. */
  function ServicedLines(e: Env, b: Hub, ops: seq<FrameOp>, j: nat): nat
    decreases ops
  {
    if ops == [] then 0
    else (if ops[0].Line? && j in b.hdmaen then 1 else 0) + ServicedLines(e, StepOp(e, b, ops[0]), ops[1..], j)
  }

  lemma MaskKeepsChannel(b: Hub, mask: set<nat>, j: nat)
    requires j < 8 && (b.state[j].active || j in b.ended)
    ensures Proj(WriteHdmaen(b, mask), j) == Proj(b, j)
  {
  }

  lemma TableWritesSplit(rd: Image, c: DmaChannel, p: word, n: nat)
    ensures TableWrites(rd, c, p, n + 1) == TableWrites(rd, c, p, n) + TableLine(rd, c, p, n)
  {
  }

  /** From `l` lines into its table, any allowed run keeps the channel on its table. */
  lemma {:induction false} RunFollowsTable(e: Env, b: Hub, ops: seq<FrameOp>, j: nat, r: Region, rd: Image,
                                           c: DmaChannel, l: nat, sent: seq<Write>)
    requires j < 8 && OpsAllowed(e, b, ops, j, r, rd)
    requires Covers(r, rd, c, c.a1t, l + ServicedLines(e, b, ops, j))
    requires Proj(b, j) == At(rd, c, c.a1t, l)
    requires SentBy(b.out, j) == sent + TableWrites(rd, c, c.a1t, l)
    ensures var n := l + ServicedLines(e, b, ops, j);
            var b1 := RunOps(e, b, ops);
            Proj(b1, j) == At(rd, c, c.a1t, n) && SentBy(b1.out, j) == sent + TableWrites(rd, c, c.a1t, n)
    decreases ops
  {
    hide HdmaChannels, At, AutoLine, SentBy, TableWrites, WriteHdmaen, Covers, CalmLine;
    if ops != [] {
      var b1 := StepOp(e, b, ops[0]);
      match ops[0] {
        case Line =>
          if j in b.hdmaen {
            CoversReads(r, rd, c, c.a1t, l, l + ServicedLines(e, b, ops, j));
            LineOnBus(e, b, 0, j, r, rd);
            LineFollowsTable(rd, c, c.a1t, l);
            TableWritesSplit(rd, c, c.a1t, l);
            var ws := TableLine(rd, c, c.a1t, l);
            assert sent + TableWrites(rd, c, c.a1t, l) + ws == sent + (TableWrites(rd, c, c.a1t, l) + ws);
            RunFollowsTable(e, b1, ops[1..], j, r, rd, c, l + 1, sent);
          } else {
            LineOnBus(e, b, 0, j, r, rd);
            assert SentBy(b.out, j) + [] == SentBy(b.out, j);
            RunFollowsTable(e, b1, ops[1..], j, r, rd, c, l, sent);
          }
        case MaskWrite(mask) =>
          EndedIsInactive(rd, c, c.a1t, l);
          MaskKeepsChannel(b, mask, j);
          MaskKeepsOut(b, mask);
          RunFollowsTable(e, b1, ops[1..], j, r, rd, c, l, sent);
        case Other(next) =>
          RunFollowsTable(e, b1, ops[1..], j, r, rd, c, l, sent);
      }
    }
  }

  lemma MaskKeepsOut(b: Hub, mask: set<nat>)
    ensures WriteHdmaen(b, mask).out == b.out
  {
  }

  // ---- A table that has ended ----

  predicate Ended(b: Hub, j: nat)
    requires j < 8
  {
    j in b.ended && !b.state[j].active
  }

  lemma {:induction false} EndedLine(e: Env, b: Hub, i: nat, j: nat)
    requires i <= 8 && j < 8 && Ended(b, j)
    ensures var b1 := HdmaChannels(e, b, i); Proj(b1, j) == Proj(b, j) && SentBy(b1.out, j) == SentBy(b.out, j)
    decreases 8 - i
  {
    hide ServiceChannel, SentBy;
    if i < 8 {
      if !Serviced(b, i) {
        EndedLine(e, b, i + 1, j);
      } else if b.mem.fault.None? {
        OtherChannel(e, b, i, j);
        EndedLine(e, ServiceChannel(e, b, i), i + 1, j);
      }
    }
  }

  /** Other activity that leaves the channel's HDMA state, its ended mark and its output alone. */
  ghost predicate Spares(b: Hub, next: Hub, j: nat)
    requires j < 8
  {
    next.state[j] == b.state[j] && (j in next.ended <==> j in b.ended) && SentBy(next.out, j) == SentBy(b.out, j)
  }

  ghost predicate OthersSpare(e: Env, b: Hub, ops: seq<FrameOp>, j: nat)
    requires j < 8
    decreases ops
  {
    ops == [] ||
    (&& (ops[0].Other? ==> Spares(b, ops[0].next, j))
     && OthersSpare(e, StepOp(e, b, ops[0]), ops[1..], j))
  }

  /**
   Whatever lines, faults, $420C writes and other activity follow, a channel whose table has ended is
   never active and sends nothing until the next frame start; memory, the clock, the mask and every
   register, the channel's own included, may change under it.
   */
  lemma {:induction false} EndedStaysSilent(e: Env, b: Hub, ops: seq<FrameOp>, j: nat)
    requires j < 8 && Ended(b, j) && OthersSpare(e, b, ops, j)
    ensures var b1 := RunOps(e, b, ops);
            Ended(b1, j) && b1.state[j] == b.state[j] && SentBy(b1.out, j) == SentBy(b.out, j)
    ensures (forall op :: op in ops ==> !op.Other?) ==> Proj(RunOps(e, b, ops), j) == Proj(b, j)
    decreases ops
  {
    hide HdmaChannels, SentBy, WriteHdmaen;
    if ops != [] {
      match ops[0] {
        case Line =>
          EndedLine(e, b, 0, j);
        case MaskWrite(mask) =>
          MaskKeepsChannel(b, mask, j);
          MaskKeepsOut(b, mask);
        case Other(_) =>
      }
      EndedStaysSilent(e, StepOp(e, b, ops[0]), ops[1..], j);
    }
  }

  // ---- Frame start ----

  lemma {:induction false} InitKeeps(e: Env, b: Hub, i: nat, j: nat)
    requires i <= 8 && j < i
    ensures var b1 := InitChannels(e, b, i);
            Proj(b1, j) == Proj(b, j) && b1.mem == b.mem && b1.out == b.out && b1.hdmaen == b.hdmaen
    decreases 8 - i
  {
    hide LoadEntry;
    if i < 8 {
      if i in b.hdmaen {
        var b1 := b.(ch := b.ch[i := b.ch[i].(a2a := b.ch[i].a1t)]);
        LoadKeeps(e, b1, i);
        InitKeeps(e, LoadEntry(e, b1, i), i + 1, j);
      } else {
        InitKeeps(e, b.(state := b.state[i := INACTIVE]), i + 1, j);
      }
    }
  }

  /** After frame start an enabled channel stands at the first line of its table. */
  lemma {:induction false} InitLoads(e: Env, b: Hub, i: nat, j: nat, r: Region, rd: Image)
    requires i <= j < 8 && j in b.hdmaen && j !in b.ended
    requires Calm(e, b.mem, r, rd) && HeaderIn(r, rd, b.ch[j], b.ch[j].a1t)
    ensures var b1 := InitChannels(e, b, i);
            && Proj(b1, j) == At(rd, b.ch[j], b.ch[j].a1t, 0)
            && b1.out == b.out
    decreases 8 - i
  {
    hide LoadEntry, AutoLoad, At, Calm;
    if i < j {
      if i in b.hdmaen {
        var b1 := b.(ch := b.ch[i := b.ch[i].(a2a := b.ch[i].a1t)]);
        LoadKeeps(e, b1, i);
        assert Proj(LoadEntry(e, b1, i), j) == Proj(b, j);
        InitLoads(e, LoadEntry(e, b1, i), i + 1, j, r, rd);
      } else {
        InitLoads(e, b.(state := b.state[i := INACTIVE]), i + 1, j, r, rd);
      }
    } else {
      var c := b.ch[j].(a2a := b.ch[j].a1t);
      var b1 := b.(ch := b.ch[j := c]);
      LoadOnBus(e, b1, j, r, rd);
      LoadIsAt(rd, Proj(b1, j));
      LoadKeeps(e, b1, j);
      InitKeeps(e, LoadEntry(e, b1, j), j + 1, j);
      AtIgnoresPointer(rd, b.ch[j], c, c.a1t);
    }
  }

  lemma AtIgnoresPointer(rd: Image, c: DmaChannel, d: DmaChannel, p: word)
    requires d == c.(a2a := d.a2a)
    ensures At(rd, c, p, 0) == At(rd, d, p, 0)
  {
    assert UnitStart(rd, c, p, 0) == UnitStart(rd, d, p, 0);
  }

  /**
   HDMA refines its table. A channel enabled at frame start, whose registers are left alone and
   whose table and data bytes stay calm, has after any run of lines, $420C writes and other
   activity sent exactly the first n lines of its table, n being the number of lines that serviced
   it; its registers, counter and state are those of line n. Which lines those were, and what the
   other seven channels did, makes no difference.
   */
  lemma HdmaRefinesTable(e: Env, b: Hub, ops: seq<FrameOp>, j: nat, r: Region, rd: Image)
    requires j < 8 && j in b.hdmaen
    requires Calm(e, b.mem, r, rd)
    requires OpsAllowed(e, InitHdma(e, b), ops, j, r, rd)
    requires Covers(r, rd, b.ch[j], b.ch[j].a1t, ServicedLines(e, InitHdma(e, b), ops, j))
    ensures var n := ServicedLines(e, InitHdma(e, b), ops, j);
            var b1 := RunOps(e, InitHdma(e, b), ops);
            && Proj(b1, j) == At(rd, b.ch[j], b.ch[j].a1t, n)
            && SentBy(b1.out, j) == SentBy(b.out, j) + TableWrites(rd, b.ch[j], b.ch[j].a1t, n)
  {
    hide Calm, At, SentBy, InitChannels, StepOp;
    InitLoads(e, b.(ended := {}), 0, j, r, rd);
    assert SentBy(b.out, j) + [] == SentBy(b.out, j);
    RunFollowsTable(e, InitHdma(e, b), ops, j, r, rd, b.ch[j], 0, SentBy(b.out, j));
  }

  // ---- A guard a caller can check: no enabled channel targets the WRAM port ----

  predicate AvoidsWramPort(c: DmaChannel) {
    forall p :: 0 <= p < UnitLen(c) ==> BReg(c.bbad, UnitPattern(c.dmap)[p]) != 0x80
  }

  predicate EnabledAvoidWramPort(b: Hub) {
    forall i :: 0 <= i < 8 && i in b.hdmaen ==> AvoidsWramPort(b.ch[i])
  }

  /** From `a` to `b` the A bus, the mask and the channels' targets have not changed. */
  ghost predicate Quiet(e: Env, a: Hub, b: Hub) {
    && b.hdmaen == a.hdmaen
    && (forall i :: 0 <= i < 8 ==> b.ch[i].dmap == a.ch[i].dmap && b.ch[i].bbad == a.ch[i].bbad)
    && forall bank: byte, off: word :: ARead(e, b.mem, bank, off) == ARead(e, a.mem, bank, off)
  }

  lemma QuietKeepsGuard(e: Env, a: Hub, b: Hub, r: Region, rd: Image)
    requires Quiet(e, a, b) && EnabledAvoidWramPort(a) && Calm(e, a.mem, r, rd)
    ensures EnabledAvoidWramPort(b) && Calm(e, b.mem, r, rd)
  {
    hide ARead;
    forall i | 0 <= i < 8 && i in b.hdmaen ensures AvoidsWramPort(b.ch[i]) {
      assert AvoidsWramPort(a.ch[i]);
    }
  }

  lemma QuietJoin(e: Env, a: Hub, b: Hub, c: Hub)
    requires Quiet(e, a, b) && Quiet(e, b, c)
    ensures Quiet(e, a, c)
  {
    hide ARead;
  }

  lemma QuietByte(e: Env, b: Hub, i: nat, p: nat)
    requires i < 8 && AvoidsWramPort(b.ch[i]) && p < UnitLen(b.ch[i])
    ensures Quiet(e, b, MoveUnitByte(e, b, i, p))
  {
    hide ARead, BWrite;
    var c := b.ch[i];
    var reg := BReg(c.bbad, UnitPattern(c.dmap)[p]);
    var v := if c.Indirect() then ARead(e, b.mem, c.dasb, c.das) else ARead(e, b.mem, c.a1b, c.a2a);
    forall bank: byte, off: word
      ensures ARead(e, BWrite(e, b.mem, reg, v), bank, off) == ARead(e, b.mem, bank, off)
    {
      BWriteKeepsABus(e, b.mem, reg, v, bank, off);
    }
  }

  lemma {:induction false} QuietUnit(e: Env, b: Hub, i: nat, p: nat, r: Region, rd: Image)
    requires i < 8 && i in b.hdmaen && EnabledAvoidWramPort(b) && Calm(e, b.mem, r, rd)
    ensures CalmUnit(e, b, i, p, r, rd) && Quiet(e, b, MoveUnit(e, b, i, p))
    decreases UnitLen(b.ch[i]) - p
  {
    hide ARead, MoveUnitByte, AvoidsWramPort, Quiet, Calm;
    QuietSelf(e, b);
    if p < UnitLen(b.ch[i]) {
      var b1 := MoveUnitByte(e, b, i, p);
      QuietByte(e, b, i, p);
      QuietKeepsGuard(e, b, b1, r, rd);
      QuietMask(e, b, b1);
      QuietUnit(e, b1, i, p + 1, r, rd);
      QuietJoin(e, b, b1, MoveUnit(e, b1, i, p + 1));
    }
  }

  lemma QuietSelf(e: Env, b: Hub)
    ensures Quiet(e, b, b)
  {
  }

  lemma QuietMask(e: Env, a: Hub, b: Hub)
    requires Quiet(e, a, b)
    ensures b.hdmaen == a.hdmaen
  {
  }

  lemma QuietChannel(e: Env, b: Hub, i: nat, r: Region, rd: Image)
    requires i < 8 && i in b.hdmaen && EnabledAvoidWramPort(b) && Calm(e, b.mem, r, rd)
    ensures Quiet(e, b, ServiceChannel(e, b, i))
  {
    hide MoveUnit, CloseLine, CalmUnit, Quiet, EnabledAvoidWramPort, Calm;
    QuietSelf(e, b);
    QuietUnit(e, b, i, 0, r, rd);
    var b1 := if b.state[i].doTransfer then MoveUnit(e, b, i, 0) else b;
    QuietClose(e, b1, i);
    QuietJoin(e, b, b1, CloseLine(e, b1, i));
  }

  lemma QuietClose(e: Env, b: Hub, i: nat)
    requires i < 8
    ensures Quiet(e, b, CloseLine(e, b, i))
  {
    hide ARead;
    assert CloseLine(e, b, i).mem == b.mem;
  }

  lemma {:induction false} QuietLine(e: Env, b: Hub, i: nat, r: Region, rd: Image)
    requires i <= 8 && EnabledAvoidWramPort(b) && Calm(e, b.mem, r, rd)
    ensures CalmLine(e, b, i, r, rd) && Quiet(e, b, HdmaChannels(e, b, i))
    decreases 8 - i
  {
    hide ServiceChannel, CalmUnit, Quiet, EnabledAvoidWramPort, Calm;
    QuietSelf(e, b);
    if i < 8 {
      if Serviced(b, i) {
        var b1 := ServiceChannel(e, b, i);
        QuietUnit(e, b, i, 0, r, rd);
        QuietChannel(e, b, i, r, rd);
        QuietKeepsGuard(e, b, b1, r, rd);
        QuietLine(e, b1, i + 1, r, rd);
        QuietJoin(e, b, b1, HdmaChannels(e, b1, i + 1));
      } else {
        QuietLine(e, b, i + 1, r, rd);
      }
    }
  }

  /**
   A step the guarded result allows: no enabled channel on the WRAM port when a line is serviced;
   other activity leaves the region, the mask, the output and the channel's registers and HDMA state
   alone and forgets no fault. Anything else, other channels' registers included, may change.
   */
  ghost predicate StepGuarded(e: Env, b: Hub, op: FrameOp, j: nat, r: Region, rd: Image)
    requires j < 8
  {
    match op
    case Line => EnabledAvoidWramPort(b)
    case MaskWrite(_) => true
    case Other(next) =>
      && Proj(next, j) == Proj(b, j) && next.out == b.out && next.hdmaen == b.hdmaen
      && (Calm(e, b.mem, r, rd) ==> Calm(e, next.mem, r, rd))
      && (b.mem.fault.Some? ==> next.mem.fault.Some?)
  }

  ghost predicate OpsGuarded(e: Env, b: Hub, ops: seq<FrameOp>, j: nat, r: Region, rd: Image)
    requires j < 8
    decreases ops
  {
    ops == [] || (StepGuarded(e, b, ops[0], j, r, rd) && OpsGuarded(e, StepOp(e, b, ops[0]), ops[1..], j, r, rd))
  }

  /** A guarded run that ends without a fault: then no line faulted and the region stayed calm. */
  lemma {:induction false} QuietRun(e: Env, b: Hub, ops: seq<FrameOp>, j: nat, r: Region, rd: Image)
    requires j < 8 && OpsGuarded(e, b, ops, j, r, rd) && Calm(e, b.mem, r, rd)
    requires RunOps(e, b, ops).mem.fault.None?
    ensures OpsAllowed(e, b, ops, j, r, rd)
    decreases ops
  {
    hide HdmaChannels, CalmLine, EnabledAvoidWramPort, Calm, Quiet;
    if ops != [] {
      var b1 := StepOp(e, b, ops[0]);
      if ops[0].Line? {
        QuietLine(e, b, 0, r, rd);
        QuietKeepsGuard(e, b, b1, r, rd);
        if b1.mem.fault.Some? {
          FaultStays(e, b1, ops[1..], j, r, rd);
        }
      }
      QuietRun(e, b1, ops[1..], j, r, rd);
    }
  }

  lemma {:induction false} FaultStays(e: Env, b: Hub, ops: seq<FrameOp>, j: nat, r: Region, rd: Image)
    requires j < 8 && OpsGuarded(e, b, ops, j, r, rd) && b.mem.fault.Some?
    ensures RunOps(e, b, ops).mem.fault.Some?
    decreases ops
  {
    hide HdmaChannels, EnabledAvoidWramPort, Calm;
    if ops != [] {
      FaultSticks(e, b, 0);
      FaultStays(e, StepOp(e, b, ops[0]), ops[1..], j, r, rd);
    }
  }

  lemma {:induction false} InitKeepsMemory(e: Env, b: Hub, i: nat)
    requires i <= 8
    ensures InitChannels(e, b, i).mem == b.mem
    decreases 8 - i
  {
    hide LoadEntry;
    if i < 8 {
      if i in b.hdmaen {
        var b1 := b.(ch := b.ch[i := b.ch[i].(a2a := b.ch[i].a1t)]);
        LoadKeeps(e, b1, i);
        InitKeepsMemory(e, LoadEntry(e, b1, i), i + 1);
      } else {
        InitKeepsMemory(e, b.(state := b.state[i := INACTIVE]), i + 1);
      }
    }
  }

  /**
   The same with a guard a caller can check instead of a calm bus: if no enabled channel targets the
   WRAM port when a line is serviced, a fault-free frame sends every enabled channel's table as the
   A bus showed it at frame start, whatever activity there is between the lines, as long as it keeps
   off the table, the channel's registers and the mask.
   */
  lemma HdmaRefinesTableOffWramPort(e: Env, b: Hub, ops: seq<FrameOp>, j: nat, r: Region)
    requires j < 8 && j in b.hdmaen
    requires var rd := (bank: byte, off: word) => ARead(e, b.mem, bank, off);
             && OpsGuarded(e, InitHdma(e, b), ops, j, r, rd)
             && Covers(r, rd, b.ch[j], b.ch[j].a1t, ServicedLines(e, InitHdma(e, b), ops, j))
    requires RunOps(e, InitHdma(e, b), ops).mem.fault.None?
    ensures var n := ServicedLines(e, InitHdma(e, b), ops, j);
            var rd := (bank: byte, off: word) => ARead(e, b.mem, bank, off);
            SentBy(RunOps(e, InitHdma(e, b), ops).out, j) == SentBy(b.out, j) + TableWrites(rd, b.ch[j], b.ch[j].a1t, n)
  {
    hide InitChannels, ARead, StepOp, SentBy, OpsGuarded, OpsAllowed, Covers;
    var rd := (bank: byte, off: word) => ARead(e, b.mem, bank, off);
    InitKeepsMemory(e, b.(ended := {}), 0);
    QuietRun(e, InitHdma(e, b), ops, j, r, rd);
    HdmaRefinesTable(e, b, ops, j, r, rd);
  }

  /** With only lines and $420C writes in between, the guard can be checked at frame start. */
  lemma {:induction false} GuardFromStart(e: Env, b: Hub, ops: seq<FrameOp>, j: nat, r: Region, rd: Image)
    requires j < 8 && forall op :: op in ops ==> !op.Other?
    requires forall i :: 0 <= i < 8 ==> AvoidsWramPort(b.ch[i])
    ensures OpsGuarded(e, b, ops, j, r, rd)
    decreases ops
  {
    hide HdmaChannels, CalmLine;
    if ops != [] {
      var b1 := StepOp(e, b, ops[0]);
      QuietLine(e, b, 0, iset{}, rd);
      forall i | 0 <= i < 8 ensures AvoidsWramPort(b1.ch[i]) {
        assert AvoidsWramPort(b.ch[i]);
      }
      GuardFromStart(e, b1, ops[1..], j, r, rd);
    }
  }

  /** A region holding the whole A bus covers every table, so then nothing is asked of the table. */
  lemma {:induction false} CoversAll(r: Region, rd: Image, c: DmaChannel, p: word, lines: nat)
    requires forall bank: byte, off: word :: (bank, off) in r
    ensures Covers(r, rd, c, p, lines)
    decreases lines
  {
    if Count(rd, c, p) != 0 && EntryLines(Count(rd, c, p)) <= lines {
      CoversAll(r, rd, c, NextEntry(rd, c, p), lines - EntryLines(Count(rd, c, p)));
    }
  }

  lemma {:induction false} InitKeepsTargets(e: Env, b: Hub, i: nat)
    requires i <= 8 && forall k :: 0 <= k < 8 ==> AvoidsWramPort(b.ch[k])
    ensures forall k :: 0 <= k < 8 ==> AvoidsWramPort(InitChannels(e, b, i).ch[k])
    decreases 8 - i
  {
    if i < 8 {
      if i in b.hdmaen {
        var b1 := LoadEntry(e, b.(ch := b.ch[i := b.ch[i].(a2a := b.ch[i].a1t)]), i);
        forall k | 0 <= k < 8 ensures AvoidsWramPort(b1.ch[k]) {
          assert b1.ch[k].dmap == b.ch[k].dmap && b1.ch[k].bbad == b.ch[k].bbad && AvoidsWramPort(b.ch[k]);
        }
        InitKeepsTargets(e, b1, i + 1);
      } else {
        InitKeepsTargets(e, b.(state := b.state[i := INACTIVE]), i + 1);
      }
    }
  }

  /**
   With no channel on the WRAM port and nothing but lines and $420C writes in between, nothing is asked
   of the table or the run: a fault-free frame sends the table as the A bus showed it at frame start.
   */
  lemma LinesRefineTable(e: Env, b: Hub, ops: seq<FrameOp>, j: nat)
    requires j < 8 && j in b.hdmaen && forall i :: 0 <= i < 8 ==> AvoidsWramPort(b.ch[i])
    requires forall op :: op in ops ==> !op.Other?
    requires RunOps(e, InitHdma(e, b), ops).mem.fault.None?
    ensures var n := ServicedLines(e, InitHdma(e, b), ops, j);
            var rd := (bank: byte, off: word) => ARead(e, b.mem, bank, off);
            SentBy(RunOps(e, InitHdma(e, b), ops).out, j)
            == SentBy(b.out, j) + TableWrites(rd, b.ch[j], b.ch[j].a1t, n)
  {
    hide InitChannels, ARead, StepOp, SentBy, OpsGuarded, Covers, AvoidsWramPort;
    var rd := (bank: byte, off: word) => ARead(e, b.mem, bank, off);
    var all: Region := iset bank: byte, off: word | true :: (bank, off);
    assert forall bank: byte, off: word :: (bank, off) in all;
    InitKeepsTargets(e, b.(ended := {}), 0);
    GuardFromStart(e, InitHdma(e, b), ops, j, all, rd);
    CoversAll(all, rd, b.ch[j], b.ch[j].a1t, ServicedLines(e, InitHdma(e, b), ops, j));
    HdmaRefinesTableOffWramPort(e, b, ops, j, all);
  }
}
