/** The two passes over a program: what each does to one line, and the image they produce. */
module Assemble {
  import opened Timing
  import opened Expression
  import opened Isa

  const U32 := 0x1_0000_0000
  const U64 := 0x1_0000_0000_0000_0000

  type u32 = n: nat | n < U32

  datatype Stmt =
    | Blank
    | Assign(name: string, e: Expr)
    | Org(e: Expr)
    | AWidth(w: Width)
    | IWidth(w: Width)
    | Db(es: seq<Expr>)
    | Dw(es: seq<Expr>)
    | Fill(count: Expr, fill: Expr)
    | Ascii(text: seq<byte>)
    | Instruction(m: Mnemonic, op: Operand)

  datatype Line = Line(lbl: Option<string>, stmt: Stmt)

  predicate IsData(st: Stmt) { st.Db? || st.Dw? || st.Fill? || st.Ascii? || st.Instruction? }

  /** `at` counts lines from 0; a sizing bug names the label whose address moved. */
  datatype AsmError = BadLine(at: nat) | SizingBug(at: nat, moved: string) | BufferUnderflow
  datatype Result<T> = Ok(value: T) | Err(error: AsmError)

  // ---- Pass 1 ----

  datatype Sizing = Sizing(pc: u32, first: Option<u32>, last: u32, aw: Width, iw: Width, syms: Symbols)

  /** A count is read as an unsigned 64-bit number. */
  function Count(v: int): nat { v % U64 }

  /** None when the fill arguments do not evaluate; no other data line can fail in this pass. */
  function DataSize(st: Stmt, aw: Width, iw: Width, s: Symbols): Option<nat>
    requires IsData(st)
  {
    match st
    case Db(es) => Some(|es|)
    case Dw(es) => Some(2 * |es|)
    case Fill(c, b) => if Eval(s, c).None? || Eval(s, b).None? then None else Some(Count(Eval(s, c).value))
    case Ascii(text) => Some(|text|)
    case Instruction(m, op) => Some(InstructionSize(m, op, aw, iw, s))
  }

  function DefineLabel(p: Sizing, l: Line): Sizing {
    if l.lbl.Some? then p.(syms := p.syms[l.lbl.value := p.pc]) else p
  }

  function Began(p: Sizing, at: u32): Sizing { if p.first.None? then p.(first := Some(at)) else p }

  function SizeStmt(p: Sizing, st: Stmt): Option<Sizing> {
    match st
    case Blank => Some(p)
    case Assign(n, e) => Some(p.(syms := p.syms[n := if Eval(p.syms, e).Some? then Eval(p.syms, e).value else 0]))
    case Org(e) =>
      if Eval(p.syms, e).None? then None
      else Some(Began(p, Eval(p.syms, e).value % U32).(pc := Eval(p.syms, e).value % U32))
    case AWidth(w) => Some(p.(aw := w))
    case IWidth(w) => Some(p.(iw := w))
    case _ =>
      var n := DataSize(st, p.aw, p.iw, p.syms);
      if n.None? then None
      else Some(Began(p, p.pc).(pc := (p.pc + n.value) % U32, last := (p.pc + n.value) % U32))
  }

  function SizeLine(p: Sizing, l: Line): Option<Sizing> { SizeStmt(DefineLabel(p, l), l.stmt) }

  function Start(init: Symbols): Sizing { Sizing(0, None, 0, W8, W8, init) }

  /** The sizing state before line `i`. */
  function Pass1(lines: seq<Line>, init: Symbols, i: nat): Result<Sizing>
    requires i <= |lines|
  {
    if i == 0 then Ok(Start(init))
    else
      match Pass1(lines, init, i - 1)
      case Err(e) => Err(e)
      case Ok(p) =>
        var next := SizeLine(p, lines[i - 1]);
        if next.None? then Err(BadLine(i - 1)) else Ok(next.value)
  }

  // ---- Constants again, now with every label known ----

  function Redefine(s: Symbols, l: Line): Symbols {
    if l.stmt.Assign? && Eval(s, l.stmt.e).Some? then s[l.stmt.name := Eval(s, l.stmt.e).value] else s
  }

  function Constants(lines: seq<Line>, s: Symbols, i: nat): Symbols
    requires i <= |lines|
  {
    if i == 0 then s else Redefine(Constants(lines, s, i - 1), lines[i - 1])
  }

  // ---- Pass 2 ----

  datatype Emission = Emission(pc: u32, aw: Width, iw: Width, buf: seq<byte>)

  function EvalAll(es: seq<Expr>, s: Symbols, width: nat): (r: Option<seq<byte>>)
    requires width == 1 || width == 2
    ensures r.Some? ==> |r.value| == width * |es|
    decreases es
  {
    if es == [] then Some([])
    else
      var v, rest := Eval(s, es[0]), EvalAll(es[1..], s, width);
      if v.None? || rest.None? then None else Some((if width == 2 then B2(v.value) else B1(v.value)) + rest.value)
  }

  function DataBytes(st: Stmt, pc: u32, aw: Width, iw: Width, s: Symbols): Option<seq<byte>>
    requires IsData(st)
  {
    match st
    case Db(es) => EvalAll(es, s, 1)
    case Dw(es) => EvalAll(es, s, 2)
    case Fill(c, b) =>
      if Eval(s, c).None? || Eval(s, b).None? then None
      else Some(seq(Count(Eval(s, c).value), i => Eval(s, b).value % 0x100))
    case Ascii(text) => Some(text)
    case Instruction(m, op) => Encode(m, op, pc, aw, iw, s)
  }

  /** Bytes that fall outside the buffer are dropped. */
  function Store(buf: seq<byte>, at: int, bytes: seq<byte>): (r: seq<byte>)
    ensures |r| == |buf|
  {
    seq(|buf|, k requires 0 <= k < |buf| => if at <= k < at + |bytes| then bytes[k - at] else buf[k])
  }

  /** Bytes that fit are spliced in; otherwise only the part inside the buffer is, and the rest is lost. */
  lemma StoreSplices(buf: seq<byte>, at: int, bytes: seq<byte>)
    ensures var lo := if at < 0 then 0 else at;
            var hi := if at + |bytes| > |buf| then |buf| else at + |bytes|;
            Store(buf, at, bytes) == if lo < hi then buf[..lo] + bytes[lo - at..hi - at] + buf[hi..] else buf
  {
  }

  function EmitStmt(q: Emission, st: Stmt, s: Symbols, base: u32): Option<Emission> {
    match st
    case Blank => Some(q)
    case Assign(_, _) => Some(q)
    case Org(e) => if Eval(s, e).None? then None else Some(q.(pc := Eval(s, e).value % U32))
    case AWidth(w) => Some(q.(aw := w))
    case IWidth(w) => Some(q.(iw := w))
    case _ =>
      var bytes := DataBytes(st, q.pc, q.aw, q.iw, s);
      if bytes.None? then None
      else Some(q.(buf := Store(q.buf, q.pc - base, bytes.value), pc := (q.pc + |bytes.value|) % U32))
  }

  /** The guard: a label must be where pass 1 put it. */
  predicate LabelMoved(q: Emission, l: Line, s: Symbols) {
    l.lbl.Some? && (l.lbl.value !in s || s[l.lbl.value] != q.pc)
  }

  function EmitLine(q: Emission, l: Line, s: Symbols, base: u32, at: nat): Result<Emission> {
    if LabelMoved(q, l, s) then Err(SizingBug(at, l.lbl.value))
    else
      var next := EmitStmt(q, l.stmt, s, base);
      if next.None? then Err(BadLine(at)) else Ok(next.value)
  }

  function Pass2(lines: seq<Line>, s: Symbols, base: u32, size: nat, i: nat): Result<Emission>
    requires i <= |lines|
  {
    if i == 0 then Ok(Emission(base, W8, W8, seq(size, k => 0)))
    else
      match Pass2(lines, s, base, size, i - 1)
      case Err(e) => Err(e)
      case Ok(q) => EmitLine(q, lines[i - 1], s, base, i - 1)
  }

  // ---- The whole assembler ----

  /** The image size, with the source's reading of a 64 KiB wrap; the last case stops on an underflow. */
  function ImageSize(base: u32, end: u32): Option<nat> {
    if end > base then Some(end - base)
    else if end == 0 && base <= 0x8000 then Some(0x1_0000 - base)
    else if end < base then if base <= 0x1_0000 then Some(0x1_0000 - base + end) else None
    else Some(1)
  }

  function FinalSymbols(lines: seq<Line>, p: Sizing): Symbols { Constants(lines, p.syms, |lines|) }
  function Base(p: Sizing): u32 { if p.first.Some? then p.first.value else 0 }

  datatype Image = Image(buf: seq<byte>, base: u32)

  function AssembleProgram(lines: seq<Line>, init: Symbols): Result<Image> {
    match Pass1(lines, init, |lines|)
    case Err(e) => Err(e)
    case Ok(p) =>
      var size := ImageSize(Base(p), p.last);
      if size.None? then Err(BufferUnderflow)
      else
        match Pass2(lines, FinalSymbols(lines, p), Base(p), size.value, |lines|)
        case Err(e) => Err(e)
        case Ok(q) => Ok(Image(q.buf, Base(p)))
  }

  /** A source with no bytes at all still yields a whole bank of zeros: its end address is 0. */
  lemma EmptySource(init: Symbols)
    ensures AssembleProgram([], init) == Ok(Image(seq(0x1_0000, k => 0), 0))
  {
    assert Pass1([], init, 0) == Ok(Start(init));
    assert ImageSize(0, 0) == Some(0x1_0000);
    assert Pass2([], init, 0, 0x1_0000, 0).value.buf == seq(0x1_0000, k => 0);
  }
}
