/** The assembler object: its loops over the lines, proved to compute the two passes. */
module AssemblerObject {
  import opened Timing
  import opened Expression
  import opened Isa
  import opened Assemble

  class Assembler {
    var symbols: Symbols

    constructor ()
      ensures symbols == map[]
    {
      symbols := map[];
    }

    /** The sizing pass; the table is this object's own and keeps what was defined before an error. */
    method SizeLines(lines: seq<Line>) returns (r: Result<Sizing>)
      modifies this`symbols
      ensures r == Pass1(lines, old(symbols), |lines|)
      ensures r.Ok? ==> symbols == r.value.syms
    {
      hide SizeStmt;
      var p := Start(symbols);
      for i := 0 to |lines|
        invariant Pass1(lines, old(symbols), i) == Ok(p) && symbols == p.syms
      {
        var l := lines[i];
        if l.lbl.Some? { symbols := symbols[l.lbl.value := p.pc]; }
        var next := SizeStmt(p.(syms := symbols), l.stmt);
        if next.None? {
          FailsAfter(lines, old(symbols), i + 1, |lines|);
          return Err(BadLine(i));
        }
        p := next.value;
        symbols := p.syms;
      }
      r := Ok(p);
    }

    /** An error on one line is the result of the whole pass. */
    lemma {:induction false} FailsAfter(lines: seq<Line>, init: Symbols, i: nat, j: nat)
      requires i <= j <= |lines| && Pass1(lines, init, i).Err?
      ensures Pass1(lines, init, j) == Pass1(lines, init, i)
      decreases j
    {
      if i < j { FailsAfter(lines, init, i, j - 1); }
    }

    method RedefineConstants(lines: seq<Line>)
      modifies this`symbols
      ensures symbols == Constants(lines, old(symbols), |lines|)
    {
      for i := 0 to |lines|
        invariant symbols == Constants(lines, old(symbols), i)
      {
        if lines[i].stmt.Assign? {
          var v := Eval(symbols, lines[i].stmt.e);
          if v.Some? { symbols := symbols[lines[i].stmt.name := v.value]; }
        }
      }
    }

    /** Writes one line's bytes, dropping those outside the buffer. */
    method StoreBytes(buf: array<byte>, at: int, bytes: seq<byte>)
      modifies buf
      ensures buf[..] == Store(old(buf[..]), at, bytes)
    {
      for i := 0 to |bytes|
        invariant forall k :: 0 <= k < buf.Length ==>
          buf[k] == if at <= k < at + i then bytes[k - at] else old(buf[k])
      {
        if 0 <= at + i < buf.Length { buf[at + i] := bytes[i]; }
      }
    }

    method EmitLines(lines: seq<Line>, base: u32, size: nat) returns (r: Result<Image>)
      ensures var q := Pass2(lines, symbols, base, size, |lines|);
              r == if q.Err? then Err(q.error) else Ok(Image(q.value.buf, base))
    {
      hide DataBytes, Store, LabelMoved;
      var buf := new byte[size](_ => 0);
      var pc: u32, aw, iw := base, W8, W8;
      assert buf[..] == seq(size, k => 0);
      for i := 0 to |lines|
        invariant Pass2(lines, symbols, base, size, i) == Ok(Emission(pc, aw, iw, buf[..]))
      {
        var st := lines[i].stmt;
        ghost var q := Emission(pc, aw, iw, buf[..]);
        if MovedFrom(pc, lines[i]) {
          assert LabelMoved(q, lines[i], symbols) by { LabelMeaning(q, lines[i]); }
          StopsAfter(lines, symbols, base, size, i + 1, |lines|);
          return Err(SizingBug(i, lines[i].lbl.value));
        }
        assert !LabelMoved(q, lines[i], symbols) by { LabelMeaning(q, lines[i]); }
        if IsData(st) {
          var bytes := DataBytes(st, pc, aw, iw, symbols);
          if bytes.None? {
            StopsAfter(lines, symbols, base, size, i + 1, |lines|);
            return Err(BadLine(i));
          }
          StoreBytes(buf, pc - base, bytes.value);
          pc := (pc + |bytes.value|) % U32;
        } else if st.Org? {
          var v := Eval(symbols, st.e);
          if v.None? {
            StopsAfter(lines, symbols, base, size, i + 1, |lines|);
            return Err(BadLine(i));
          }
          pc := v.value % U32;
        } else if st.AWidth? {
          aw := st.w;
        } else if st.IWidth? {
          iw := st.w;
        }
      }
      r := Ok(Image(buf[..], base));
    }

    predicate MovedFrom(pc: u32, l: Line)
      reads this`symbols
    {
      l.lbl.Some? && (if l.lbl.value in symbols then symbols[l.lbl.value] else -1) != pc
    }

    lemma LabelMeaning(q: Emission, l: Line)
      ensures MovedFrom(q.pc, l) == LabelMoved(q, l, symbols)
    {
    }

    lemma {:induction false} StopsAfter(lines: seq<Line>, s: Symbols, base: u32, size: nat, i: nat, j: nat)
      requires i <= j <= |lines| && Pass2(lines, s, base, size, i).Err?
      ensures Pass2(lines, s, base, size, j) == Pass2(lines, s, base, size, i)
      decreases j
    {
      if i < j { StopsAfter(lines, s, base, size, i, j - 1); }
    }

    method AssembleTwoPass(lines: seq<Line>) returns (r: Result<Image>)
      modifies this`symbols
      ensures r == AssembleProgram(lines, old(symbols))
    {
      hide ImageSize;
      var sized := SizeLines(lines);
      if sized.Err? { return Err(sized.error); }
      RedefineConstants(lines);
      var base := Base(sized.value);
      var size := ImageSize(base, sized.value.last);
      if size.None? { return Err(BufferUnderflow); }
      r := EmitLines(lines, base, size.value);
    }
  }
}
