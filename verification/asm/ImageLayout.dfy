/** The assembled image: every byte at its address, nothing dropped or overwritten, zero in between. */
module ImageLayout {
  import opened Timing
  import opened Expression
  import opened Isa
  import opened Assemble
  import opened Agreement

  function SizeAt(lines: seq<Line>, init: Symbols, i: nat): nat
    requires Sized(lines, init) && i < |lines| && IsData(lines[i].stmt)
  {
    var p := At(lines, init, i);
    var n := DataSize(lines[i].stmt, p.aw, p.iw, TableAt(lines, init, i));
    if n.Some? then n.value else 0
  }

  /** Origins never move back, and the address does not wrap at 32 bits. */
  predicate Ascending(lines: seq<Line>, init: Symbols)
    requires Sized(lines, init)
  {
    && (forall i :: 0 <= i < |lines| && lines[i].stmt.Org? && At(lines, init, i).first.Some? ==>
          At(lines, init, i).pc <= At(lines, init, i + 1).pc)
    && (forall i :: 0 <= i < |lines| && IsData(lines[i].stmt) ==> At(lines, init, i).pc + SizeAt(lines, init, i) < U32)
  }

  /** Addresses only grow, and the end of the data so far is never past them. */
  predicate Grows(p: Sizing, q: Sizing) {
    && (p.first.Some? ==> q.first == p.first && p.pc <= q.pc && p.last <= q.last)
    && (q.first.Some? ==> q.first.value <= q.pc)
    && q.last <= q.pc
  }

  lemma LineAscends(lines: seq<Line>, init: Symbols, i: nat)
    requires Sized(lines, init) && Ascending(lines, init) && i < |lines|
    requires var p := At(lines, init, i); p.last <= p.pc && if p.first.Some? then p.first.value <= p.pc else p.pc == 0
    ensures Grows(At(lines, init, i), At(lines, init, i + 1))
    ensures At(lines, init, i + 1).first.None? ==> At(lines, init, i + 1).pc == 0
    ensures IsData(lines[i].stmt) ==>
              && At(lines, init, i + 1).first.Some?
              && At(lines, init, i + 1).pc == At(lines, init, i + 1).last
              && At(lines, init, i + 1).pc == At(lines, init, i).pc + SizeAt(lines, init, i)
  {
    hide At, DataSize, Eval;
    NextAt(lines, init, i);
    StepAscends(At(lines, init, i), lines[i], At(lines, init, i + 1));
  }

  /** One line from `p` to `q`, given that an origin does not move back and data does not wrap. */
  lemma StepAscends(p: Sizing, l: Line, q: Sizing)
    requires SizeLine(p, l) == Some(q)
    requires p.last <= p.pc && if p.first.Some? then p.first.value <= p.pc else p.pc == 0
    requires l.stmt.Org? && p.first.Some? ==> p.pc <= q.pc
    requires IsData(l.stmt) ==> p.pc + DataSize(l.stmt, p.aw, p.iw, DefineLabel(p, l).syms).value < U32
    ensures Grows(p, q) && (q.first.None? ==> q.pc == 0)
    ensures IsData(l.stmt) ==>
              && q.first.Some? && q.pc == q.last
              && q.pc == p.pc + DataSize(l.stmt, p.aw, p.iw, DefineLabel(p, l).syms).value
  {
    hide DataSize, Eval;
  }

  lemma {:induction false} Bounds(lines: seq<Line>, init: Symbols, i: nat)
    requires Sized(lines, init) && Ascending(lines, init) && i <= |lines|
    ensures var p := At(lines, init, i); p.last <= p.pc && if p.first.Some? then p.first.value <= p.pc else p.pc == 0
    decreases i
  {
    hide At, SizeAt, Ascending;
    if i == 0 {
      FirstState(lines, init);
    } else {
      Bounds(lines, init, i - 1);
      LineAscends(lines, init, i - 1);
    }
  }

  lemma FirstState(lines: seq<Line>, init: Symbols)
    requires Sized(lines, init)
    ensures At(lines, init, 0) == Start(init)
  {
  }

  lemma {:induction false} LaterGrows(lines: seq<Line>, init: Symbols, i: nat, j: nat)
    requires Sized(lines, init) && Ascending(lines, init) && i <= j <= |lines| && At(lines, init, i).first.Some?
    ensures Grows(At(lines, init, i), At(lines, init, j))
    decreases j
  {
    hide At, SizeAt, Ascending;
    if i == j {
      Bounds(lines, init, i);
    } else {
      LaterGrows(lines, init, i, j - 1);
      Bounds(lines, init, j - 1);
      LineAscends(lines, init, j - 1);
    }
  }

  /** A data line lies between the base and the end of the image. */
  lemma DataInImage(lines: seq<Line>, init: Symbols, i: nat)
    requires Sized(lines, init) && Ascending(lines, init) && i < |lines| && IsData(lines[i].stmt)
    ensures Origin(lines, init) <= At(lines, init, i).pc
    ensures At(lines, init, i).pc + SizeAt(lines, init, i) <= At(lines, init, |lines|).last
  {
    hide At, SizeAt, Ascending, Origin;
    Bounds(lines, init, i);
    LineAscends(lines, init, i);
    LaterGrows(lines, init, i + 1, |lines|);
    FirstIsOrigin(lines, init, i + 1);
    if At(lines, init, i).first.Some? {
      FirstIsOrigin(lines, init, i);
    } else {
      StartsAtPc(lines, init, i);
    }
  }

  /** The first data line without an origin before it sets the base to its own address. */
  lemma StartsAtPc(lines: seq<Line>, init: Symbols, i: nat)
    requires Sized(lines, init) && i < |lines| && IsData(lines[i].stmt) && At(lines, init, i).first.None?
    ensures At(lines, init, i + 1).first == Some(At(lines, init, i).pc)
  {
    hide At, DataSize;
    NextAt(lines, init, i);
  }

  lemma DataApart(lines: seq<Line>, init: Symbols, i: nat, j: nat)
    requires Sized(lines, init) && Ascending(lines, init) && i < j < |lines|
    requires IsData(lines[i].stmt)
    ensures At(lines, init, i).pc + SizeAt(lines, init, i) <= At(lines, init, j).pc
  {
    hide At, SizeAt, Ascending;
    Bounds(lines, init, i);
    LineAscends(lines, init, i);
    LaterGrows(lines, init, i + 1, j);
  }

  /** The image size when some line has bytes. */
  lemma SizeOfImage(lines: seq<Line>, init: Symbols, i: nat)
    requires Sized(lines, init) && Ascending(lines, init) && i < |lines| && IsData(lines[i].stmt)
             && SizeAt(lines, init, i) > 0
    ensures var p := At(lines, init, |lines|);
            p.last > Origin(lines, init) && ImageSize(Origin(lines, init), p.last) == Some(p.last - Origin(lines, init))
  {
    hide At, SizeAt, Ascending, Origin;
    DataInImage(lines, init, i);
  }

  // ---- Placement ----

  /** The bytes line `i` emits. */
  function BytesAt(lines: seq<Line>, init: Symbols, i: nat): seq<byte>
    requires Sized(lines, init) && i < |lines| && IsData(lines[i].stmt)
  {
    var p := At(lines, init, i);
    var bytes := DataBytes(lines[i].stmt, p.pc, p.aw, p.iw, Final(lines, init));
    if bytes.Some? then bytes.value else []
  }

  /** The end of the data, so the size of the image. */
  function Extent(lines: seq<Line>, init: Symbols): nat
    requires Sized(lines, init) && At(lines, init, |lines|).last >= Origin(lines, init)
  {
    At(lines, init, |lines|).last - Origin(lines, init)
  }

  /** One line of pass 2 on the buffer: its bytes stored at its address, or nothing. */
  lemma BufferStep(lines: seq<Line>, init: Symbols, size: nat, j: nat)
    requires Sized(lines, init) && AllAgree(lines, init) && Ascending(lines, init)
    requires j < |lines| && Pass2At(lines, init, size, j + 1).Ok?
    ensures Pass2At(lines, init, size, j).Ok?
    ensures var b, c := Pass2At(lines, init, size, j).value.buf, Pass2At(lines, init, size, j + 1).value.buf;
            if IsData(lines[j].stmt)
            then |BytesAt(lines, init, j)| == SizeAt(lines, init, j)
              && c == Store(b, At(lines, init, j).pc - Origin(lines, init), BytesAt(lines, init, j))
            else c == b
  {
    hide At, Store, StmtAgrees, DataBytes, DataSize, Final, Origin, Ascending, Constants;
    PrefixEmitted(lines, init, size, j, j + 1);
    PassesInPlace(lines, init, size, j);
    if IsData(lines[j].stmt) {
      NextAt(lines, init, j);
      Bounds(lines, init, j);
      if At(lines, init, j).first.None? {
        StartsAtPc(lines, init, j);
        FirstIsOrigin(lines, init, j + 1);
      }
      var p := DefineLabel(At(lines, init, j), lines[j]);
      DataAgreement(lines[j].stmt, p.pc, p.aw, p.iw, p.syms, Final(lines, init));
    }
  }

  lemma {:induction false} BufferLength(lines: seq<Line>, init: Symbols, size: nat, j: nat)
    requires Sized(lines, init) && j <= |lines| && Pass2At(lines, init, size, j).Ok?
    ensures |Pass2At(lines, init, size, j).value.buf| == size
    decreases j
  {
    hide DataBytes, Final, Origin;
    if j > 0 { BufferLength(lines, init, size, j - 1); }
  }

  lemma {:induction false} ByteLands(lines: seq<Line>, init: Symbols, size: nat, i: nat, k: nat, j: nat)
    requires Sized(lines, init) && AllAgree(lines, init) && Ascending(lines, init)
    requires i < j <= |lines| && IsData(lines[i].stmt) && Pass2At(lines, init, size, j).Ok?
    requires k < |BytesAt(lines, init, i)|
    requires var at := At(lines, init, i).pc - Origin(lines, init) + k; 0 <= at < size
    ensures |Pass2At(lines, init, size, j).value.buf| == size
    ensures Pass2At(lines, init, size, j).value.buf[At(lines, init, i).pc - Origin(lines, init) + k]
            == BytesAt(lines, init, i)[k]
    decreases j
  {
    hide At, SizeAt, BytesAt, AllAgree, Ascending, Origin, Pass2At;
    BufferStep(lines, init, size, j - 1);
    BufferLength(lines, init, size, j);
    BufferLength(lines, init, size, j - 1);
    if i < j - 1 {
      ByteLands(lines, init, size, i, k, j - 1);
      DataApart(lines, init, i, j - 1);
      SizesMatch(lines, init, size, i, j);
    }
  }

  lemma SizesMatch(lines: seq<Line>, init: Symbols, size: nat, i: nat, j: nat)
    requires Sized(lines, init) && AllAgree(lines, init) && Ascending(lines, init)
    requires i < j <= |lines| && IsData(lines[i].stmt) && Pass2At(lines, init, size, j).Ok?
    ensures |BytesAt(lines, init, i)| == SizeAt(lines, init, i)
  {
    hide At, SizeAt, BytesAt, AllAgree, Ascending, Origin, Pass2At, Store;
    PrefixEmitted(lines, init, size, i + 1, j);
    BufferStep(lines, init, size, i);
  }

  /** Position `at` of the image belongs to data line `i`. */
  predicate Covers(lines: seq<Line>, init: Symbols, i: nat, at: nat)
    requires Sized(lines, init) && i < |lines|
  {
    IsData(lines[i].stmt)
    && At(lines, init, i).pc <= Origin(lines, init) + at < At(lines, init, i).pc + |BytesAt(lines, init, i)|
  }

  lemma {:induction false} GapIsZero(lines: seq<Line>, init: Symbols, size: nat, at: nat, j: nat)
    requires Sized(lines, init) && AllAgree(lines, init) && Ascending(lines, init)
    requires j <= |lines| && Pass2At(lines, init, size, j).Ok? && at < size
    requires forall i :: 0 <= i < |lines| ==> !Covers(lines, init, i, at)
    ensures |Pass2At(lines, init, size, j).value.buf| == size
    ensures Pass2At(lines, init, size, j).value.buf[at] == 0
    decreases j
  {
    hide At, SizeAt, BytesAt, AllAgree, Ascending, Origin, Pass2At;
    BufferLength(lines, init, size, j);
    if j > 0 {
      BufferStep(lines, init, size, j - 1);
      BufferLength(lines, init, size, j - 1);
      GapIsZero(lines, init, size, at, j - 1);
      assert !Covers(lines, init, j - 1, at);
    } else {
      EmptyBuffer(lines, init, size);
    }
  }

  lemma EmptyBuffer(lines: seq<Line>, init: Symbols, size: nat)
    requires Sized(lines, init)
    ensures Pass2At(lines, init, size, 0).Ok? && Pass2At(lines, init, size, 0).value.buf == seq(size, k => 0)
  {
  }

  /** Data line `i` lies within the image, and the image has its bytes at its address. */
  predicate Placed(img: Image, lines: seq<Line>, init: Symbols, i: nat)
    requires Sized(lines, init) && i < |lines| && IsData(lines[i].stmt)
  {
    var at, n := At(lines, init, i).pc - img.base, |BytesAt(lines, init, i)|;
    0 <= at && at + n <= |img.buf| && img.buf[at..at + n] == BytesAt(lines, init, i)
  }

  lemma LinePlaced(img: Image, lines: seq<Line>, init: Symbols, i: nat)
    requires Sized(lines, init) && AllAgree(lines, init) && Ascending(lines, init)
    requires At(lines, init, |lines|).last >= Origin(lines, init)
             && Pass2At(lines, init, Extent(lines, init), |lines|).Ok?
    requires img == Image(Pass2At(lines, init, Extent(lines, init), |lines|).value.buf, Origin(lines, init))
    requires i < |lines| && IsData(lines[i].stmt)
    ensures Placed(img, lines, init, i)
  {
    hide At, SizeAt, BytesAt, AllAgree, Ascending, Origin, Pass2At;
    var size, n := Extent(lines, init), |lines|;
    BufferLength(lines, init, size, n);
    DataInImage(lines, init, i);
    SizesMatch(lines, init, size, i, n);
    forall k | 0 <= k < |BytesAt(lines, init, i)|
      ensures img.buf[At(lines, init, i).pc - img.base + k] == BytesAt(lines, init, i)[k] {
      ByteLands(lines, init, size, i, k, n);
    }
  }

  /**
   Image placement: with agreeing sizes, origins that do not move back and at least one byte, the
   image runs from the first address to the end of the last data line, every emitted byte is at its
   address less the base, and every other position is zero.
   */
  lemma ImagePlacement(lines: seq<Line>, init: Symbols, first: nat)
    requires Sized(lines, init) && AllAgree(lines, init) && Ascending(lines, init)
    requires first < |lines| && IsData(lines[first].stmt) && SizeAt(lines, init, first) > 0
    requires AssembleProgram(lines, init).Ok?
    ensures var img, p := AssembleProgram(lines, init).value, At(lines, init, |lines|);
            && img.base == Origin(lines, init) < p.last && |img.buf| == p.last - img.base
            && (forall i :: 0 <= i < |lines| && IsData(lines[i].stmt) ==> Placed(img, lines, init, i))
            && (forall at :: 0 <= at < |img.buf| ==>
                  img.buf[at] == 0 || exists i :: 0 <= i < |lines| && Covers(lines, init, i, at))
  {
    hide At, SizeAt, BytesAt, AllAgree, Ascending, Origin, Pass2At, Covers, Placed;
    var img, p, n := AssembleProgram(lines, init).value, At(lines, init, |lines|), |lines|;
    SizeOfImage(lines, init, first);
    var size := Extent(lines, init);
    ImageIsPass2(lines, init, size);
    BufferLength(lines, init, size, n);
    forall i | 0 <= i < n && IsData(lines[i].stmt) ensures Placed(img, lines, init, i) {
      LinePlaced(img, lines, init, i);
    }
    forall at | 0 <= at < size
      ensures img.buf[at] == 0 || exists i :: 0 <= i < n && Covers(lines, init, i, at) {
      if forall i :: 0 <= i < n ==> !Covers(lines, init, i, at) { GapIsZero(lines, init, size, at, n); }
    }
  }

  lemma ImageIsPass2(lines: seq<Line>, init: Symbols, size: nat)
    requires Sized(lines, init) && AssembleProgram(lines, init).Ok?
    requires ImageSize(Origin(lines, init), At(lines, init, |lines|).last) == Some(size)
    ensures Pass2At(lines, init, size, |lines|).Ok?
    ensures AssembleProgram(lines, init).value
            == Image(Pass2At(lines, init, size, |lines|).value.buf, Origin(lines, init))
  {
    hide ImageSize;
  }
}
