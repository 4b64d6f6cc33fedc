/**
 What an HDMA table means, independently of the raw line counter: entry after entry, a count byte
 of $01-$80 is 1-128 lines with one transfer unit on the first, $81-$FF is 1-127 lines with a unit
 on each, and $00 ends the table. The channel automaton is proved to follow that meaning.
 */
module HdmaTable {
  import opened Timing
  import opened Memory
  import opened Dma
  import opened Hdma

  /** The bytes the A bus shows. */
  type Image = (byte, word) -> byte

  datatype Write = Write(reg: byte, value: byte)

  // ---- Meaning of a table ----

  function EntryLines(count: byte): nat { if count <= 0x80 then count else count - 0x80 }
  predicate Repeats(count: byte) { count > 0x80 }
  /** Units sent by the first `l` lines of an entry. */
  function UnitsBy(count: byte, l: nat): nat { if Repeats(count) then l else if l == 0 then 0 else 1 }

  function UnitLen(c: DmaChannel): (n: nat)
    ensures n == 1 || n == 2 || n == 4
  {
    |UnitPattern(c.dmap)|
  }

  function Plus(w: word, n: nat): word { (w + n) % 0x1_0000 }
  function DataBank(c: DmaChannel): byte { if c.Indirect() then c.dasb else c.a1b }

  function Count(rd: Image, c: DmaChannel, p: word): byte { rd(c.a1b, p) }

  /** Where the data bytes of the entry at `p` start. */
  function Data(rd: Image, c: DmaChannel, p: word): word {
    if c.Indirect() then rd(c.a1b, Plus(p, 1)) + rd(c.a1b, Plus(p, 2)) * 0x100 else Plus(p, 1)
  }

  function UnitStart(rd: Image, c: DmaChannel, p: word, l: nat): word {
    Plus(Data(rd, c, p), UnitsBy(Count(rd, c, p), l) * UnitLen(c))
  }

  /** Where the entry after the one at `p` starts: behind its inline data or its address word. */
  function NextEntry(rd: Image, c: DmaChannel, p: word): word {
    if c.Indirect() then Plus(p, 3) else UnitStart(rd, c, p, EntryLines(Count(rd, c, p)))
  }

  function UnitWrites(rd: Image, c: DmaChannel, start: word): seq<Write> {
    var pattern := UnitPattern(c.dmap);
    seq(|pattern|, k requires 0 <= k < |pattern| => Write(BReg(c.bbad, pattern[k]), rd(DataBank(c), Plus(start, k))))
  }

  /** What line `l` sends, counted from the first line of the entry at `p`. */
  function TableLine(rd: Image, c: DmaChannel, p: word, l: nat): seq<Write>
    decreases l
  {
    var count := Count(rd, c, p);
    if count == 0 then []
    else if l < EntryLines(count) then
      if l == 0 || Repeats(count) then UnitWrites(rd, c, UnitStart(rd, c, p, l)) else []
    else TableLine(rd, c, NextEntry(rd, c, p), l - EntryLines(count))
  }

  function TableWrites(rd: Image, c: DmaChannel, p: word, lines: nat): seq<Write> {
    if lines == 0 then [] else TableWrites(rd, c, p, lines - 1) + TableLine(rd, c, p, lines - 1)
  }

  // ---- The channel automaton, against a fixed image ----

  datatype Auto = Auto(c: DmaChannel, h: HdmaState, ended: bool)

  function AutoLoad(rd: Image, a: Auto): Auto {
    var c := a.c;
    var count := rd(c.a1b, c.a2a);
    var p := NextWord(c.a2a);
    var c1 := c.(a2a := p, ntrl := count);
    if count == 0 then Auto(c1, INACTIVE, true)
    else if c.Indirect() then
      Auto(c1.(a2a := NextWord(NextWord(p)), das := rd(c.a1b, p) + rd(c.a1b, NextWord(p)) * 0x100),
           HdmaState(true, true), a.ended)
    else Auto(c1, HdmaState(true, true), a.ended)
  }

  function Pointer(c: DmaChannel): word { if c.Indirect() then c.das else c.a2a }

  function AutoByte(rd: Image, c: DmaChannel, p: nat): (DmaChannel, Write)
    requires p < UnitLen(c)
  {
    (if c.Indirect() then c.(das := NextWord(c.das)) else c.(a2a := NextWord(c.a2a)),
     Write(BReg(c.bbad, UnitPattern(c.dmap)[p]), rd(DataBank(c), Pointer(c))))
  }

  function AutoUnit(rd: Image, c: DmaChannel, p: nat): (DmaChannel, seq<Write>)
    decreases UnitLen(c) - p
  {
    if p >= UnitLen(c) then (c, [])
    else
      var (c1, w) := AutoByte(rd, c, p);
      var (c2, ws) := AutoUnit(rd, c1, p + 1);
      (c2, [w] + ws)
  }

  function AutoClose(rd: Image, a: Auto): Auto {
    var n: byte := (a.c.ntrl + 0xFF) % 0x100;
    var a1 := a.(c := a.c.(ntrl := n));
    if n % 0x80 == 0 then AutoLoad(rd, a1) else a1.(h := a1.h.(doTransfer := n >= 0x80))
  }

  function AutoLine(rd: Image, a: Auto): (Auto, seq<Write>) {
    if !a.h.active then (a, [])
    else
      var (c, ws) := if a.h.doTransfer then AutoUnit(rd, a.c, 0) else (a.c, []);
      (AutoClose(rd, a.(c := c)), ws)
  }

  // ---- The automaton's state in closed form ----

  /** The channel `l` lines into the entry at `p`. */
  function WithinEntry(rd: Image, c: DmaChannel, p: word, l: nat): DmaChannel
    requires l <= Count(rd, c, p)
  {
    var at := UnitStart(rd, c, p, l);
    var c1 := c.(ntrl := Count(rd, c, p) - l);
    if c.Indirect() then c1.(a2a := Plus(p, 3), das := at) else c1.(a2a := at)
  }

  /** The automaton `l` serviced lines after it loaded the entry at `p`. */
  function At(rd: Image, c: DmaChannel, p: word, l: nat): Auto
    decreases l
  {
    var count := Count(rd, c, p);
    if count == 0 then Auto(c.(a2a := Plus(p, 1), ntrl := 0), INACTIVE, true)
    else if l < EntryLines(count) then
      Auto(WithinEntry(rd, c, p, l), HdmaState(true, l == 0 || Repeats(count)), false)
    else At(rd, WithinEntry(rd, c, p, EntryLines(count)), NextEntry(rd, c, p), l - EntryLines(count))
  }

  lemma LoadIsAt(rd: Image, a: Auto)
    requires !a.ended
    ensures AutoLoad(rd, a) == At(rd, a.c, a.c.a2a, 0)
  {
    var p := a.c.a2a;
    assert NextWord(p) == Plus(p, 1) && NextWord(Plus(p, 1)) == Plus(p, 2) && NextWord(Plus(p, 2)) == Plus(p, 3);
    assert Plus(Data(rd, a.c, p), 0) == Data(rd, a.c, p);
  }

  /** The same registers, the rolling pointers and the counter aside. */
  predicate SameSetup(c: DmaChannel, d: DmaChannel) {
    d == c.(a2a := d.a2a, das := d.das, ntrl := d.ntrl)
  }

  lemma UnitWritesLocal(rd: Image, c: DmaChannel, d: DmaChannel, start: word)
    requires SameSetup(c, d)
    ensures UnitWrites(rd, c, start) == UnitWrites(rd, d, start)
  {
    assert c.dmap == d.dmap && c.bbad == d.bbad && DataBank(c) == DataBank(d);
    var a, b := UnitWrites(rd, c, start), UnitWrites(rd, d, start);
    forall k | 0 <= k < UnitLen(c) ensures a[k] == b[k] {
      assert a[k] == Write(BReg(c.bbad, UnitPattern(c.dmap)[k]), rd(DataBank(c), Plus(start, k)));
    }
  }

  lemma UnitWritesTail(rd: Image, c: DmaChannel, start: word, p: nat)
    requires p < UnitLen(c)
    ensures UnitWrites(rd, c, start)[p..]
            == [Write(BReg(c.bbad, UnitPattern(c.dmap)[p]), rd(DataBank(c), Plus(start, p)))]
              + UnitWrites(rd, c, start)[p + 1..]
  {
  }

  lemma WrapNext(w: word, n: nat)
    ensures NextWord(Plus(w, n)) == Plus(w, n + 1)
  {
  }

  /** The unit loop sends the unit's bytes and leaves the pointer behind them. */
  lemma {:induction false} AutoUnitExact(rd: Image, c: DmaChannel, start: word, p: nat)
    requires p <= UnitLen(c) && Pointer(c) == Plus(start, p)
    ensures var (c1, ws) := AutoUnit(rd, c, p);
            && ws == UnitWrites(rd, c, start)[p..]
            && c1 == if c.Indirect() then c.(das := Plus(start, UnitLen(c))) else c.(a2a := Plus(start, UnitLen(c)))
    decreases UnitLen(c) - p
  {
    if p < UnitLen(c) {
      hide UnitWrites, Plus, NextWord;
      var c1 := AutoByte(rd, c, p).0;
      WrapNext(start, p);
      AutoUnitExact(rd, c1, start, p + 1);
      UnitWritesLocal(rd, c, c1, start);
      UnitWritesTail(rd, c, start, p);
    } else {
      assert UnitWrites(rd, c, start)[p..] == [];
    }
  }

  lemma UnitAdvance(rd: Image, c: DmaChannel, p: word, l: nat)
    requires l == 0 || Repeats(Count(rd, c, p))
    ensures Plus(UnitStart(rd, c, p, l), UnitLen(c)) == UnitStart(rd, c, p, l + 1)
  {
    var n := UnitLen(c);
    assert UnitsBy(Count(rd, c, p), l + 1) == UnitsBy(Count(rd, c, p), l) + 1;
    assert (UnitsBy(Count(rd, c, p), l) + 1) * n == UnitsBy(Count(rd, c, p), l) * n + n;
  }

  /** Only the pointers differ along a table, and its meaning does not depend on them. */
  lemma {:induction false} TableLineLocal(rd: Image, c: DmaChannel, d: DmaChannel, p: word, l: nat)
    requires SameSetup(c, d)
    ensures TableLine(rd, c, p, l) == TableLine(rd, d, p, l)
    decreases l
  {
    var count := Count(rd, c, p);
    if count != 0 {
      assert NextEntry(rd, c, p) == NextEntry(rd, d, p);
      if l < EntryLines(count) {
        UnitWritesLocal(rd, c, d, UnitStart(rd, c, p, l));
      } else {
        TableLineLocal(rd, c, d, NextEntry(rd, c, p), l - EntryLines(count));
      }
    }
  }

  /** The unit of line `l` of an entry, if one is due, carries the pointers to line `l + 1`. */
  lemma EntryUnit(rd: Image, c: DmaChannel, p: word, l: nat)
    requires Count(rd, c, p) != 0 && l < EntryLines(Count(rd, c, p))
    requires l == 0 || Repeats(Count(rd, c, p))
    ensures AutoUnit(rd, WithinEntry(rd, c, p, l), 0)
            == (WithinEntry(rd, c, p, l + 1).(ntrl := Count(rd, c, p) - l), UnitWrites(rd, c, UnitStart(rd, c, p, l)))
  {
    hide UnitWrites, UnitStart, AutoUnit;
    var w := WithinEntry(rd, c, p, l);
    var start := UnitStart(rd, c, p, l);
    assert Plus(start, 0) == start;
    AutoUnitExact(rd, w, start, 0);
    UnitWritesLocal(rd, c, w, start);
    assert UnitWrites(rd, c, start)[0..] == UnitWrites(rd, c, start);
    UnitAdvance(rd, c, p, l);
  }

  /** A line without a unit leaves the pointers where they are. */
  lemma IdleLine(rd: Image, c: DmaChannel, p: word, l: nat)
    requires 0 < l < EntryLines(Count(rd, c, p)) && !Repeats(Count(rd, c, p))
    ensures WithinEntry(rd, c, p, l + 1).(ntrl := Count(rd, c, p) - l) == WithinEntry(rd, c, p, l)
  {
  }

  /** The counter decrement that follows: the next line of the entry, or the next entry. */
  lemma EntryClose(rd: Image, c: DmaChannel, p: word, l: nat, h: HdmaState)
    requires Count(rd, c, p) != 0 && l < EntryLines(Count(rd, c, p)) && h.active
    ensures AutoClose(rd, Auto(WithinEntry(rd, c, p, l + 1).(ntrl := Count(rd, c, p) - l), h, false))
            == At(rd, c, p, l + 1)
  {
    hide UnitStart, NextEntry, AutoLoad;
    var count := Count(rd, c, p);
    var next := WithinEntry(rd, c, p, l + 1);
    if l + 1 == EntryLines(count) {
      LoadIsAt(rd, Auto(next, h, false));
      assert next.a2a == NextEntry(rd, c, p) by { EntryEnd(rd, c, p); }
    }
  }

  lemma EntryEnd(rd: Image, c: DmaChannel, p: word)
    requires Count(rd, c, p) != 0
    ensures WithinEntry(rd, c, p, EntryLines(Count(rd, c, p))).a2a == NextEntry(rd, c, p)
  {
  }

  lemma WithinSetup(rd: Image, c: DmaChannel, p: word, l: nat)
    requires l <= Count(rd, c, p)
    ensures SameSetup(c, WithinEntry(rd, c, p, l))
  {
  }

  /** One serviced line of the automaton is one line of the table. */
  lemma {:induction false} LineFollowsTable(rd: Image, c: DmaChannel, p: word, l: nat)
    ensures AutoLine(rd, At(rd, c, p, l)) == (At(rd, c, p, l + 1), TableLine(rd, c, p, l))
    decreases l
  {
    var count := Count(rd, c, p);
    if count == 0 {
    } else if l < EntryLines(count) {
      hide WithinEntry, AutoUnit, AutoClose, UnitStart, UnitWrites;
      if l == 0 || Repeats(count) {
        EntryUnit(rd, c, p, l);
      } else {
        IdleLine(rd, c, p, l);
      }
      EntryClose(rd, c, p, l, At(rd, c, p, l).h);
    } else {
      hide WithinEntry, AutoLine;
      assert SameSetup(c, WithinEntry(rd, c, p, EntryLines(count))) by { WithinSetup(rd, c, p, EntryLines(count)); }
      var d := WithinEntry(rd, c, p, EntryLines(count));
      LineFollowsTable(rd, d, NextEntry(rd, c, p), l - EntryLines(count));
      TableLineLocal(rd, c, d, NextEntry(rd, c, p), l - EntryLines(count));
    }
  }

  /** A table that has ended sends nothing and stays ended. */
  lemma {:induction false} EndedForever(rd: Image, c: DmaChannel, p: word, l: nat, later: nat)
    requires At(rd, c, p, l).ended && l <= later
    ensures At(rd, c, p, later) == At(rd, c, p, l)
    ensures TableLine(rd, c, p, later) == []
    decreases later - l
  {
    LineFollowsTable(rd, c, p, l);
    EndedIsInactive(rd, c, p, l);
    if l < later {
      EndedForever(rd, c, p, l + 1, later);
    }
  }

  lemma {:induction false} EndedIsInactive(rd: Image, c: DmaChannel, p: word, l: nat)
    ensures At(rd, c, p, l).ended == !At(rd, c, p, l).h.active
    decreases l
  {
    var count := Count(rd, c, p);
    if count != 0 && l >= EntryLines(count) {
      EndedIsInactive(rd, WithinEntry(rd, c, p, EntryLines(count)), NextEntry(rd, c, p), l - EntryLines(count));
    }
  }
}
