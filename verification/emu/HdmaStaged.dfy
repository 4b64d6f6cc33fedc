/**
 A channel switched on in the middle of a frame. It was not loaded at frame start, so it starts from the
 registers the program staged: its first line only counts, and the staged NTRL decides whether the
 lines up to the next table header send units or nothing.
 */
module HdmaStaged {
  import opened Timing
  import opened Memory
  import opened Dma
  import opened Hdma
  import opened HdmaTable
  import opened HdmaTrace

  // ---- What the staged registers mean ----

  /** Lines until bits 6-0 of the staged counter reach 0 and a header is read; 128 if they are 0 already. */
  function WaitLines(c: DmaChannel): (n: nat)
    ensures 1 <= n <= 0x80
  {
    if c.ntrl % 0x80 == 0 then 0x80 else c.ntrl % 0x80
  }

  /** With bit 7 of the counted-down value set, every line of the wait but the first sends a unit. */
  predicate Streams(c: DmaChannel) { c.ntrl == 0 || c.ntrl > 0x80 }

  function WaitUnits(c: DmaChannel, l: nat): nat { if Streams(c) && l > 0 then l - 1 else 0 }

  function WaitStart(c: DmaChannel, l: nat): word { Plus(Pointer(c), WaitUnits(c, l) * UnitLen(c)) }

  /** The registers before line `l` of the wait. */
  function Waiting(c: DmaChannel, l: nat): DmaChannel {
    var c1 := c.(ntrl := (c.ntrl + 0x100 - l % 0x100) % 0x100);
    if c.Indirect() then c1.(das := WaitStart(c, l)) else c1.(a2a := WaitStart(c, l))
  }

  /** The table that follows the wait starts where A2A then points. */
  function AfterWait(c: DmaChannel): DmaChannel { Waiting(c, WaitLines(c)) }

  /** What line `l` after the switch-on sends. */
  function StagedLine(rd: Image, c: DmaChannel, l: nat): seq<Write> {
    if l >= WaitLines(c) then TableLine(rd, AfterWait(c), AfterWait(c).a2a, l - WaitLines(c))
    else if l > 0 && Streams(c) then UnitWrites(rd, c, WaitStart(c, l))
    else []
  }

  function StagedWrites(rd: Image, c: DmaChannel, lines: nat): seq<Write> {
    if lines == 0 then [] else StagedWrites(rd, c, lines - 1) + StagedLine(rd, c, lines - 1)
  }

  /** The channel `l` serviced lines after it was switched on. */
  function Staged(rd: Image, c: DmaChannel, l: nat): Auto {
    if l < WaitLines(c) then Auto(Waiting(c, l), HdmaState(true, l > 0 && Streams(c)), false)
    else At(rd, AfterWait(c), AfterWait(c).a2a, l - WaitLines(c))
  }

  lemma WaitNone(c: DmaChannel)
    ensures Waiting(c, 0) == c
  {
    assert Plus(Pointer(c), 0) == Pointer(c);
  }

  lemma WaitPointer(c: DmaChannel, l: nat)
    ensures Pointer(Waiting(c, l)) == WaitStart(c, l) && SameSetup(c, Waiting(c, l))
    ensures UnitLen(Waiting(c, l)) == UnitLen(c) && Waiting(c, l).Indirect() == c.Indirect()
  {
  }

  lemma WaitCounter(c: DmaChannel, l: nat)
    requires l < WaitLines(c)
    ensures (Waiting(c, l).ntrl + 0xFF) % 0x100 == Waiting(c, l + 1).ntrl
    ensures Waiting(c, l + 1).ntrl % 0x80 == 0 <==> l + 1 == WaitLines(c)
    ensures l + 1 < WaitLines(c) ==> (Waiting(c, l + 1).ntrl >= 0x80 <==> Streams(c))
  {
    hide Bit, UnitPattern, Plus;
    assert l % 0x100 == l;
    assert (l + 1) % 0x100 == l + 1;
  }

  lemma NextUnit(c: DmaChannel, l: nat)
    requires l > 0 && Streams(c)
    ensures Plus(WaitStart(c, l), UnitLen(c)) == WaitStart(c, l + 1)
  {
    var n := UnitLen(c);
    assert WaitUnits(c, l + 1) == WaitUnits(c, l) + 1;
    assert (WaitUnits(c, l) + 1) * n == WaitUnits(c, l) * n + n;
    PlusPlus(Pointer(c), WaitUnits(c, l) * n, n);
  }

  lemma PlusPlus(w: word, m: nat, n: nat)
    ensures Plus(Plus(w, m), n) == Plus(w, m + n)
  {
  }

  /** The unit of a line of the wait, if it sends one. */
  lemma WaitUnit(rd: Image, c: DmaChannel, l: nat)
    requires 0 < l < WaitLines(c) && Streams(c)
    ensures AutoUnit(rd, Waiting(c, l), 0)
            == (Waiting(c, l + 1).(ntrl := Waiting(c, l).ntrl), UnitWrites(rd, c, WaitStart(c, l)))
  {
    hide UnitWrites, WaitStart, AutoUnit, Plus;
    var w := Waiting(c, l);
    var start := WaitStart(c, l);
    WaitPointer(c, l);
    assert Plus(start, 0) == start by { PlusNone(start); }
    AutoUnitExact(rd, w, start, 0);
    UnitWritesLocal(rd, c, w, start);
    assert UnitWrites(rd, w, start)[0..] == UnitWrites(rd, w, start);
    NextUnit(c, l);
  }

  lemma PlusNone(w: word)
    ensures Plus(w, 0) == w
  {
  }

  /** A line that sends nothing leaves the pointer alone. */
  lemma SilentUnit(c: DmaChannel, l: nat)
    requires l == 0 || !Streams(c)
    ensures Waiting(c, l + 1).(ntrl := Waiting(c, l).ntrl) == Waiting(c, l)
  {
  }

  lemma WaitClose(rd: Image, c: DmaChannel, l: nat, due: bool)
    requires l < WaitLines(c)
    ensures AutoClose(rd, Auto(Waiting(c, l + 1).(ntrl := Waiting(c, l).ntrl), HdmaState(true, due), false))
            == Staged(rd, c, l + 1)
  {
    hide WaitStart, At, AutoLoad, WaitLines, Streams;
    WaitCounter(c, l);
    if l + 1 == WaitLines(c) {
      LoadIsAt(rd, Auto(AfterWait(c), HdmaState(true, due), false));
    }
  }

  /** One serviced line after the switch-on is one line of what the staged registers mean. */
  lemma LineFollowsStaged(rd: Image, c: DmaChannel, l: nat)
    ensures AutoLine(rd, Staged(rd, c, l)) == (Staged(rd, c, l + 1), StagedLine(rd, c, l))
  {
    hide AutoUnit, AutoClose, Waiting, At, UnitWrites, TableLine, WaitStart;
    if l < WaitLines(c) {
      if l > 0 && Streams(c) { WaitUnit(rd, c, l); } else { SilentUnit(c, l); }
      WaitClose(rd, c, l, l > 0 && Streams(c));
    } else {
      LineFollowsTable(rd, AfterWait(c), AfterWait(c).a2a, l - WaitLines(c));
    }
  }

  // ---- The promised silence, and exactly when it holds ----

  /** Nothing is sent before the first header exactly if the staged counter is 1 to $81. */
  lemma SilentWait(rd: Image, c: DmaChannel)
    ensures (forall l :: 0 <= l < WaitLines(c) ==> StagedLine(rd, c, l) == []) <==> 1 <= c.ntrl <= 0x81
  {
    hide Bit;
    if !(1 <= c.ntrl <= 0x81) {
      assert |UnitWrites(rd, c, WaitStart(c, 1))| == UnitLen(c);
      assert StagedLine(rd, c, 1) != [];
    }
  }

  /** A staged counter of 1 to $80 is silent for as many lines, and then the table at the staged A2A follows. */
  lemma PlainStaging(rd: Image, c: DmaChannel, l: nat)
    requires 1 <= c.ntrl <= 0x80
    ensures StagedLine(rd, c, l) == if l < c.ntrl then [] else TableLine(rd, c, c.a2a, l - c.ntrl)
  {
    hide TableLine;
    assert WaitLines(c) == c.ntrl;
    assert AfterWait(c).a2a == c.a2a by { PlusNone(c.a2a); }
    WaitPointer(c, c.ntrl);
    if l >= c.ntrl { TableLineLocal(rd, c, AfterWait(c), c.a2a, l - c.ntrl); }
  }

  // ---- On the bus ----

  lemma StagedLoaded(rd: Image, c: DmaChannel, l: nat)
    ensures Staged(rd, c, l).ended == !Staged(rd, c, l).h.active
  {
    if l >= WaitLines(c) { EndedIsInactive(rd, AfterWait(c), AfterWait(c).a2a, l - WaitLines(c)); }
  }

  /** The region holds every byte that `lines` lines after the switch-on read. */
  ghost predicate StagedCovers(r: Region, rd: Image, c: DmaChannel, lines: nat) {
    forall l: nat :: l < lines ==> ReadsIn(r, rd, Staged(rd, c, l))
  }

  lemma StagedSplit(rd: Image, c: DmaChannel, n: nat)
    ensures StagedWrites(rd, c, n + 1) == StagedWrites(rd, c, n) + StagedLine(rd, c, n)
  {
  }

  /** From `l` lines after its switch-on, any allowed run keeps the channel on that course. */
  lemma {:induction false} RunFollowsStaged(e: Env, b: Hub, ops: seq<FrameOp>, j: nat, r: Region, rd: Image,
                                            c: DmaChannel, l: nat, sent: seq<Write>)
    requires j < 8 && OpsAllowed(e, b, ops, j, r, rd)
    requires StagedCovers(r, rd, c, l + ServicedLines(e, b, ops, j))
    requires Proj(b, j) == Staged(rd, c, l)
    requires SentBy(b.out, j) == sent + StagedWrites(rd, c, l)
    ensures var n := l + ServicedLines(e, b, ops, j);
            var b1 := RunOps(e, b, ops);
            Proj(b1, j) == Staged(rd, c, n) && SentBy(b1.out, j) == sent + StagedWrites(rd, c, n)
    decreases ops
  {
    hide HdmaChannels, Staged, AutoLine, SentBy, StagedWrites, WriteHdmaen, ReadsIn, CalmLine;
    if ops != [] {
      var b1 := StepOp(e, b, ops[0]);
      match ops[0] {
        case Line =>
          LineOnBus(e, b, 0, j, r, rd);
          if j in b.hdmaen {
            LineFollowsStaged(rd, c, l);
            StagedSplit(rd, c, l);
            OneLine(sent, StagedWrites(rd, c, l), StagedLine(rd, c, l));
            RunFollowsStaged(e, b1, ops[1..], j, r, rd, c, l + 1, sent);
          } else {
            OneLine(SentBy(b.out, j), [], []);
            RunFollowsStaged(e, b1, ops[1..], j, r, rd, c, l, sent);
          }
        case MaskWrite(mask) =>
          StagedLoaded(rd, c, l);
          MaskKeepsChannel(b, mask, j);
          MaskKeepsOut(b, mask);
          RunFollowsStaged(e, b1, ops[1..], j, r, rd, c, l, sent);
        case Other(next) =>
          RunFollowsStaged(e, b1, ops[1..], j, r, rd, c, l, sent);
      }
    }
  }

  lemma OneLine(sent: seq<Write>, before: seq<Write>, ws: seq<Write>)
    ensures sent + before + ws == sent + (before + ws) && sent + [] == sent
  {
  }

  // ---- From frame start to the switch-on ----

  /** Off since frame start: not active, nothing due, not ended, its bit clear. */
  predicate Off(b: Hub, j: nat)
    requires j < 8
  {
    b.state[j] == HdmaState(false, false) && j !in b.ended && j !in b.hdmaen
  }

  /** Before the switch-on the program may do anything, the channel's registers included, but set its bit. */
  ghost predicate LeavesOff(e: Env, b: Hub, ops: seq<FrameOp>, j: nat)
    requires j < 8
    decreases ops
  {
    ops == [] ||
    (&& (match ops[0]
         case Line => true
         case MaskWrite(mask) => j !in mask
         case Other(next) => Spares(b, next, j) && j !in next.hdmaen)
     && LeavesOff(e, StepOp(e, b, ops[0]), ops[1..], j))
  }

  lemma {:induction false} OffLine(e: Env, b: Hub, i: nat, j: nat)
    requires i <= 8 && j < 8 && Off(b, j)
    ensures var b1 := HdmaChannels(e, b, i);
            Off(b1, j) && Proj(b1, j) == Proj(b, j) && SentBy(b1.out, j) == SentBy(b.out, j)
    decreases 8 - i
  {
    hide ServiceChannel, SentBy;
    if i < 8 {
      if !Serviced(b, i) {
        OffLine(e, b, i + 1, j);
      } else if b.mem.fault.None? {
        OtherChannel(e, b, i, j);
        OffLine(e, ServiceChannel(e, b, i), i + 1, j);
      }
    }
  }

  lemma OffMask(b: Hub, mask: set<nat>, j: nat)
    requires j < 8 && Off(b, j) && j !in mask
    ensures Off(WriteHdmaen(b, mask), j) && WriteHdmaen(b, mask).out == b.out
  {
  }

  lemma {:induction false} StaysOff(e: Env, b: Hub, ops: seq<FrameOp>, j: nat)
    requires j < 8 && Off(b, j) && LeavesOff(e, b, ops, j)
    ensures Off(RunOps(e, b, ops), j) && SentBy(RunOps(e, b, ops).out, j) == SentBy(b.out, j)
    decreases ops
  {
    hide HdmaChannels, SentBy, WriteHdmaen;
    if ops != [] {
      match ops[0] {
        case Line => OffLine(e, b, 0, j);
        case MaskWrite(mask) => OffMask(b, mask, j);
        case Other(_) =>
      }
      StaysOff(e, StepOp(e, b, ops[0]), ops[1..], j);
    }
  }

  /** Frame start switches off every channel whose bit is clear. */
  lemma {:induction false} InitSwitchesOff(e: Env, b: Hub, i: nat, j: nat)
    requires i <= 8 && j < 8 && j !in b.hdmaen && j !in b.ended && (i <= j || Off(b, j))
    ensures Off(InitChannels(e, b, i), j) && InitChannels(e, b, i).out == b.out
    decreases 8 - i
  {
    hide LoadEntry;
    if i < 8 {
      if i in b.hdmaen {
        var b1 := b.(ch := b.ch[i := b.ch[i].(a2a := b.ch[i].a1t)]);
        LoadKeeps(e, b1, i);
        assert Proj(LoadEntry(e, b1, i), j) == Proj(b1, j);
        InitSwitchesOff(e, LoadEntry(e, b1, i), i + 1, j);
      } else {
        InitSwitchesOff(e, b.(state := b.state[i := INACTIVE]), i + 1, j);
      }
    }
  }

  /** A $420C write switches the channel on with no unit due, and leaves its registers as staged. */
  lemma SwitchOn(rd: Image, b: Hub, mask: set<nat>, j: nat)
    requires j < 8 && Off(b, j) && j in mask
    ensures var b1 := WriteHdmaen(b, mask);
            && Proj(b1, j) == Staged(rd, b.ch[j], 0) && b1.state[j] == HdmaState(true, false)
            && b1.ch == b.ch && b1.mem == b.mem && b1.out == b.out && b1.hdmaen == mask
  {
    WaitNone(b.ch[j]);
  }

  lemma {:induction false} RunOpsAppend(e: Env, b: Hub, a: seq<FrameOp>, z: seq<FrameOp>)
    ensures RunOps(e, b, a + z) == RunOps(e, RunOps(e, b, a), z)
    decreases a
  {
    hide StepOp;
    if a == [] {
      assert a + z == z;
    } else {
      assert (a + z)[0] == a[0] && (a + z)[1..] == a[1..] + z;
      RunOpsAppend(e, StepOp(e, b, a[0]), a[1..], z);
    }
  }

  /**
   Switching on in mid-frame. A channel whose bit is clear at frame start, and which the program leaves
   clear while it stages the registers, sends from the first $420C write that sets it exactly what the
   staged registers mean, one line for every later scanline with its bit set.
   */
  lemma StagedChannelRuns(e: Env, b: Hub, before: seq<FrameOp>, mask: set<nat>, after: seq<FrameOp>, j: nat,
                          r: Region, rd: Image)
    requires j < 8 && j !in b.hdmaen && j in mask
    requires LeavesOff(e, InitHdma(e, b), before, j)
    requires var on := WriteHdmaen(RunOps(e, InitHdma(e, b), before), mask);
             && OpsAllowed(e, on, after, j, r, rd)
             && StagedCovers(r, rd, on.ch[j], ServicedLines(e, on, after, j))
    ensures var staged := RunOps(e, InitHdma(e, b), before);
            var on := WriteHdmaen(staged, mask);
            var n := ServicedLines(e, on, after, j);
            var end := RunOps(e, InitHdma(e, b), before + [MaskWrite(mask)] + after);
            && on.ch[j] == staged.ch[j] && end == RunOps(e, on, after)
            && Proj(end, j) == Staged(rd, staged.ch[j], n)
            && SentBy(end.out, j) == SentBy(b.out, j) + StagedWrites(rd, staged.ch[j], n)
  {
    hide InitChannels, WriteHdmaen, SentBy, Staged, OpsAllowed, LeavesOff, StagedCovers, Off;
    var start := InitHdma(e, b);
    StartOff(e, b, j);
    StaysOff(e, start, before, j);
    var staged := RunOps(e, start, before);
    SwitchOn(rd, staged, mask, j);
    var on := WriteHdmaen(staged, mask);
    NoWritesYet(SentBy(b.out, j), rd, staged.ch[j]);
    RunFollowsStaged(e, on, after, j, r, rd, staged.ch[j], 0, SentBy(b.out, j));
    SwitchInBetween(e, start, before, mask, after);
  }

  lemma StartOff(e: Env, b: Hub, j: nat)
    requires j < 8 && j !in b.hdmaen
    ensures Off(InitHdma(e, b), j) && InitHdma(e, b).out == b.out
  {
    InitSwitchesOff(e, b.(ended := {}), 0, j);
  }

  lemma NoWritesYet(sent: seq<Write>, rd: Image, c: DmaChannel)
    ensures sent == sent + StagedWrites(rd, c, 0)
  {
  }

  lemma SwitchInBetween(e: Env, start: Hub, before: seq<FrameOp>, mask: set<nat>, after: seq<FrameOp>)
    ensures RunOps(e, start, before + [MaskWrite(mask)] + after)
            == RunOps(e, WriteHdmaen(RunOps(e, start, before), mask), after)
  {
    hide WriteHdmaen;
    assert before + [MaskWrite(mask)] + after == before + ([MaskWrite(mask)] + after);
    RunOpsAppend(e, start, before, [MaskWrite(mask)] + after);
    assert ([MaskWrite(mask)] + after)[1..] == after;
  }

  // ---- Clearing and setting again ----

  /** Clearing a running channel's bit and setting it again changes nothing of it: a unit that was due is still due. */
  lemma ResumesWhereItWas(b: Hub, off: set<nat>, on: set<nat>, j: nat)
    requires j < 8 && b.state[j].active && j !in off && j in on
    ensures Proj(WriteHdmaen(WriteHdmaen(b, off), on), j) == Proj(b, j)
    ensures WriteHdmaen(WriteHdmaen(b, off), on).hdmaen == on
  {
    MaskKeepsChannel(b, off, j);
    MaskKeepsChannel(WriteHdmaen(b, off), on, j);
  }

  /** While its bit is clear it is not serviced. */
  lemma {:induction false} ClearedIsPaused(e: Env, b: Hub, i: nat, j: nat)
    requires i <= 8 && j < 8 && j !in b.hdmaen
    ensures var b1 := HdmaChannels(e, b, i); Proj(b1, j) == Proj(b, j) && SentBy(b1.out, j) == SentBy(b.out, j)
    decreases 8 - i
  {
    hide ServiceChannel, SentBy;
    if i < 8 {
      if !Serviced(b, i) {
        ClearedIsPaused(e, b, i + 1, j);
      } else if b.mem.fault.None? {
        OtherChannel(e, b, i, j);
        ClearedIsPaused(e, ServiceChannel(e, b, i), i + 1, j);
      }
    }
  }
}
