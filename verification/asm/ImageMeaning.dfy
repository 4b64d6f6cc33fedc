/** What the bytes of an assembled image mean: the processor finds the program's instructions, readers its data. */
module ImageMeaning {
  import opened Timing
  import opened Expression
  import opened Isa
  import opened Assemble
  import opened Agreement
  import opened ImageLayout
  import opened Decode

  /** A program the image results speak of: its passes agree and its origins do not move back. */
  predicate Laid(lines: seq<Line>, init: Symbols) {
    && Sized(lines, init) && AllAgree(lines, init) && Ascending(lines, init)
    && AssembleProgram(lines, init).Ok?
  }

  /** The part of the image line `i` was emitted to. */
  function Slice(img: Image, at: int, n: nat): seq<byte> {
    if 0 <= at && at + n <= |img.buf| then img.buf[at..at + n] else []
  }

  lemma EncodedThere(lines: seq<Line>, init: Symbols, size: nat, i: nat)
    requires Sized(lines, init) && AllAgree(lines, init) && Ascending(lines, init)
    requires i < |lines| && lines[i].stmt.Instruction? && Pass2At(lines, init, size, |lines|).Ok?
    ensures var p, st := At(lines, init, i), lines[i].stmt;
            var bytes := Encode(st.m, st.op, p.pc, p.aw, p.iw, Final(lines, init));
            bytes.Some? && BytesAt(lines, init, i) == bytes.value && SizeAt(lines, init, i) > 0
  {
    hide At, Encode, AllAgree, Ascending, Final, Pass2At;
    SizesMatch(lines, init, size, i, |lines|);
  }

  /**
   The processor, fetching at the address of an instruction line in the assembled image, finds that
   line's instruction, its operand evaluated against the final symbols.
   */
  lemma ImageRuns(lines: seq<Line>, init: Symbols, i: nat)
    requires Laid(lines, init) && i < |lines| && lines[i].stmt.Instruction?
    ensures var img, p, st := AssembleProgram(lines, init).value, At(lines, init, i), lines[i].stmt;
            var bytes := Slice(img, p.pc - img.base, SizeAt(lines, init, i));
            ReadsBack(st.m, st.op, p.pc, p.aw, p.iw, Final(lines, init), bytes)
  {
    hide At, SizeAt, BytesAt, AllAgree, Ascending, Origin, Pass2At, Final, Encode, ReadsBack, ImageLayout.Covers;
    InstructionSized(lines, init, i);
    ImagePlacement(lines, init, i);
    SizeOfImage(lines, init, i);
    ImageIsPass2(lines, init, Extent(lines, init));
    EncodedThere(lines, init, Extent(lines, init), i);
    SizesMatch(lines, init, Extent(lines, init), i, |lines|);
    var p, st := At(lines, init, i), lines[i].stmt;
    assert Placed(AssembleProgram(lines, init).value, lines, init, i);
    EncodedReadsBack(st.m, st.op, p.pc, p.aw, p.iw, Final(lines, init));
  }

  lemma InstructionSized(lines: seq<Line>, init: Symbols, i: nat)
    requires Sized(lines, init) && i < |lines| && lines[i].stmt.Instruction?
    ensures SizeAt(lines, init, i) > 0
  {
    hide At;
  }

  /** A branch to a label goes to where pass 2, filling this image, had the label's line. */
  lemma BranchLands(lines: seq<Line>, init: Symbols, i: nat, k: nat)
    requires Laid(lines, init) && i < |lines| && k < |lines| && lines[k].lbl.Some?
    requires lines[i].stmt.Instruction? && (lines[i].stmt.m.Branch? || lines[i].stmt.m.BRL?)
    requires lines[i].stmt.op == Direct(Sym(lines[k].lbl.value), false)
    ensures var img, p := AssembleProgram(lines, init).value, At(lines, init, i);
            var found := Fetch(Slice(img, p.pc - img.base, SizeAt(lines, init, i)), p.pc, p.aw, p.iw);
            var q := Pass2At(lines, init, |img.buf|, k);
            q.Ok? && found.Some? && found.value.m == lines[i].stmt.m && found.value.value == q.value.pc
  {
    hide At, SizeAt, BytesAt, AllAgree, Ascending, Origin, Pass2At, Final, Fetch, AssembleProgram;
    ImageRuns(lines, init, i);
    InstructionSized(lines, init, i);
    ImagePlacement(lines, init, i);
    SizeOfImage(lines, init, i);
    var size := |AssembleProgram(lines, init).value.buf|;
    ImageIsPass2(lines, init, size);
    GuardSound(lines, init, size, k, |lines|);
  }

  // ---- Data ----

  lemma {:induction false} BytesRead(es: seq<Expr>, s: Symbols, k: nat)
    requires EvalAll(es, s, 1).Some? && k < |es|
    ensures Eval(s, es[k]).Some? && EvalAll(es, s, 1).value[k] == Eval(s, es[k]).value % 0x100
    decreases es
  {
    hide Eval;
    if k > 0 { BytesRead(es[1..], s, k - 1); }
  }

  lemma {:induction false} WordsRead(es: seq<Expr>, s: Symbols, k: nat)
    requires EvalAll(es, s, 2).Some? && k < |es|
    ensures Eval(s, es[k]).Some?
    ensures Little(EvalAll(es, s, 2).value[2 * k..2 * k + 2]) == Eval(s, es[k]).value % 0x1_0000
    decreases es
  {
    hide Eval, Little, B2;
    var head, rest := B2(Eval(s, es[0]).value), EvalAll(es[1..], s, 2).value;
    assert |head| == 2 by { TwoLong(Eval(s, es[0]).value); }
    if k == 0 {
      assert (head + rest)[0..2] == head;
      LittleTwo(Eval(s, es[0]).value);
    } else {
      WordsRead(es[1..], s, k - 1);
      assert (head + rest)[2 * k..2 * k + 2] == rest[2 * (k - 1)..2 * (k - 1) + 2];
    }
  }

  /** Data lines: bytes and little-endian words in order, a fill repeated, text as it stands. */
  lemma DataReads(st: Stmt, pc: u32, aw: Width, iw: Width, s: Symbols)
    requires IsData(st) && !st.Instruction? && DataBytes(st, pc, aw, iw, s).Some?
    ensures var bytes := DataBytes(st, pc, aw, iw, s).value;
            && (st.Db? ==> |bytes| == |st.es| && forall k :: 0 <= k < |st.es| ==>
                  Eval(s, st.es[k]).Some? && bytes[k] == Eval(s, st.es[k]).value % 0x100)
            && (st.Dw? ==> |bytes| == 2 * |st.es| && forall k :: 0 <= k < |st.es| ==>
                  Eval(s, st.es[k]).Some? && Little(bytes[2 * k..2 * k + 2]) == Eval(s, st.es[k]).value % 0x1_0000)
            && (st.Fill? ==>
                  && Eval(s, st.count).Some? && Eval(s, st.fill).Some? && |bytes| == Eval(s, st.count).value % U64
                  && forall k :: 0 <= k < |bytes| ==> bytes[k] == Eval(s, st.fill).value % 0x100)
            && (st.Ascii? ==> bytes == st.text)
  {
    hide Eval, Little;
    if st.Db? {
      forall k | 0 <= k < |st.es|
        ensures Eval(s, st.es[k]).Some? && EvalAll(st.es, s, 1).value[k] == Eval(s, st.es[k]).value % 0x100
      {
        BytesRead(st.es, s, k);
      }
    } else if st.Dw? {
      forall k | 0 <= k < |st.es|
        ensures Eval(s, st.es[k]).Some?
        ensures Little(EvalAll(st.es, s, 2).value[2 * k..2 * k + 2]) == Eval(s, st.es[k]).value % 0x1_0000
      {
        WordsRead(st.es, s, k);
      }
    }
  }
}
