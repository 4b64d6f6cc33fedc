/**
 The bytes of an instruction read back the way the 65C816 reads them: an opcode map written from the
 processor's side, little-endian operands, and branch displacements counted from the next instruction.
 */
module Decode {
  import opened Timing
  import opened Expression
  import opened Isa

  datatype Mode =
    | Implied | Accumulator
    | Immediate8 | ImmediateM | ImmediateX
    | Dp | DpX | DpY | DpInd | DpIndX | DpIndY | DpLong | DpLongY
    | Stack | StackIndY
    | Abs | AbsX | AbsY | AbsLong | AbsLongX | AbsInd | AbsIndX | AbsIndLong
    | Rel8 | Rel16 | Move

  datatype Decoded = Decoded(m: Mnemonic, mode: Mode, value: int)

  // ---- The processor's opcode map: 32 columns of eight rows ----

  type Entry = Option<(Mnemonic, Mode)>

  /** The accumulator instructions fill their columns in this order of rows. */
  function AluRow(row: nat): AluOp {
    match row
    case 0 => ORA case 1 => AND case 2 => EOR case 3 => ADC
    case 4 => STA case 5 => LDA case 6 => CMP case _ => SBC
  }

  function ColumnMode(low: nat): Option<Mode> {
    match low
    case 0x01 => Some(DpIndX) case 0x03 => Some(Stack) case 0x05 => Some(Dp) case 0x07 => Some(DpLong)
    case 0x09 => Some(ImmediateM) case 0x0D => Some(Abs) case 0x0F => Some(AbsLong)
    case 0x11 => Some(DpIndY) case 0x12 => Some(DpInd) case 0x13 => Some(StackIndY) case 0x15 => Some(DpX)
    case 0x17 => Some(DpLongY) case 0x19 => Some(AbsY) case 0x1D => Some(AbsX) case 0x1F => Some(AbsLongX)
    case _ => None
  }

  /** No store immediate: its place is BIT's. */
  function AluEntry(row: nat, mode: Mode): Entry {
    if row == 4 && mode.ImmediateM? then Some((Register(BIT), ImmediateM)) else Some((Alu(AluRow(row)), mode))
  }

  function Column00(row: nat): Entry {
    match row
    case 0 => None case 1 => Some((JSR, Abs))
    case 2 => Some((Plain(RTI), Implied)) case 3 => Some((Plain(RTS), Implied))
    case 4 => Some((Branch(BRA), Rel8)) case 5 => Some((Register(LDY), ImmediateX))
    case 6 => Some((Register(CPY), ImmediateX)) case _ => Some((Register(CPX), ImmediateX))
  }

  function Column02(row: nat): Entry {
    match row
    case 0 => None case 1 => Some((JSL, AbsLong))
    case 2 => None case 3 => None
    case 4 => Some((BRL, Rel16)) case 5 => Some((Register(LDX), ImmediateX))
    case 6 => Some((REP, Immediate8)) case _ => Some((SEP, Immediate8))
  }

  function Column04(row: nat): Entry {
    match row
    case 0 => None case 1 => Some((Register(BIT), Dp))
    case 2 => Some((MVP, Move)) case 3 => Some((Register(STZ), Dp))
    case 4 => Some((Register(STY), Dp)) case 5 => Some((Register(LDY), Dp))
    case 6 => Some((Register(CPY), Dp)) case _ => Some((Register(CPX), Dp))
  }

  function Column06(row: nat): Entry {
    match row
    case 0 => Some((Shift(ASL), Dp)) case 1 => Some((Shift(ROL), Dp))
    case 2 => Some((Shift(LSR), Dp)) case 3 => Some((Shift(ROR), Dp))
    case 4 => Some((Register(STX), Dp)) case 5 => Some((Register(LDX), Dp))
    case 6 => Some((Shift(DEC), Dp)) case _ => Some((Shift(INC), Dp))
  }

  function Column08(row: nat): Entry {
    match row
    case 0 => Some((Plain(PHP), Implied)) case 1 => Some((Plain(PLP), Implied))
    case 2 => Some((Plain(PHA), Implied)) case 3 => Some((Plain(PLA), Implied))
    case 4 => Some((Plain(DEY), Implied)) case 5 => Some((Plain(TAY), Implied))
    case 6 => Some((Plain(INY), Implied)) case _ => Some((Plain(INX), Implied))
  }

  function Column0A(row: nat): Entry {
    match row
    case 0 => Some((Shift(ASL), Accumulator)) case 1 => Some((Shift(ROL), Accumulator))
    case 2 => Some((Shift(LSR), Accumulator)) case 3 => Some((Shift(ROR), Accumulator))
    case 4 => Some((Plain(TXA), Implied)) case 5 => Some((Plain(TAX), Implied))
    case 6 => Some((Plain(DEX), Implied)) case _ => Some((Plain(NOP), Implied))
  }

  function Column0B(row: nat): Entry {
    match row
    case 0 => Some((Plain(PHD), Implied)) case 1 => Some((Plain(PLD), Implied))
    case 2 => Some((Plain(PHK), Implied)) case 3 => Some((Plain(RTL), Implied))
    case 4 => Some((Plain(PHB), Implied)) case 5 => Some((Plain(PLB), Implied))
    case 6 => Some((Plain(WAI), Implied)) case _ => None
  }

  function Column0C(row: nat): Entry {
    match row
    case 0 => None case 1 => Some((Register(BIT), Abs))
    case 2 => Some((JMP, Abs)) case 3 => Some((JMP, AbsInd))
    case 4 => Some((Register(STY), Abs)) case 5 => Some((Register(LDY), Abs))
    case 6 => Some((Register(CPY), Abs)) case _ => Some((Register(CPX), Abs))
  }

  function Column0E(row: nat): Entry {
    match row
    case 0 => Some((Shift(ASL), Abs)) case 1 => Some((Shift(ROL), Abs))
    case 2 => Some((Shift(LSR), Abs)) case 3 => Some((Shift(ROR), Abs))
    case 4 => Some((Register(STX), Abs)) case 5 => Some((Register(LDX), Abs))
    case 6 => Some((Shift(DEC), Abs)) case _ => Some((Shift(INC), Abs))
  }

  function Column10(row: nat): Entry {
    match row
    case 0 => Some((Branch(BPL), Rel8)) case 1 => Some((Branch(BMI), Rel8))
    case 2 => Some((Branch(BVC), Rel8)) case 3 => Some((Branch(BVS), Rel8))
    case 4 => Some((Branch(BCC), Rel8)) case 5 => Some((Branch(BCS), Rel8))
    case 6 => Some((Branch(BNE), Rel8)) case _ => Some((Branch(BEQ), Rel8))
  }

  function Column14(row: nat): Entry {
    match row
    case 0 => None case 1 => Some((Register(BIT), DpX))
    case 2 => Some((MVN, Move)) case 3 => Some((Register(STZ), DpX))
    case 4 => Some((Register(STY), DpX)) case 5 => Some((Register(LDY), DpX))
    case 6 => None case _ => Some((PEA, Abs))
  }

  function Column16(row: nat): Entry {
    match row
    case 0 => Some((Shift(ASL), DpX)) case 1 => Some((Shift(ROL), DpX))
    case 2 => Some((Shift(LSR), DpX)) case 3 => Some((Shift(ROR), DpX))
    case 4 => Some((Register(STX), DpY)) case 5 => Some((Register(LDX), DpY))
    case 6 => Some((Shift(DEC), DpX)) case _ => Some((Shift(INC), DpX))
  }

  function Column18(row: nat): Entry {
    match row
    case 0 => Some((Plain(CLC), Implied)) case 1 => Some((Plain(SEC), Implied))
    case 2 => Some((Plain(CLI), Implied)) case 3 => Some((Plain(SEI), Implied))
    case 4 => Some((Plain(TYA), Implied)) case 5 => Some((Plain(CLV), Implied))
    case 6 => Some((Plain(CLD), Implied)) case _ => Some((Plain(SED), Implied))
  }

  function Column1A(row: nat): Entry {
    match row
    case 0 => Some((Shift(INC), Accumulator)) case 1 => Some((Shift(DEC), Accumulator))
    case 2 => Some((Plain(PHY), Implied)) case 3 => Some((Plain(PLY), Implied))
    case 4 => Some((Plain(TXS), Implied)) case 5 => Some((Plain(TSX), Implied))
    case 6 => Some((Plain(PHX), Implied)) case _ => Some((Plain(PLX), Implied))
  }

  function Column1B(row: nat): Entry {
    match row
    case 0 => Some((Plain(TCS), Implied)) case 1 => Some((Plain(TSC), Implied))
    case 2 => Some((Plain(TCD), Implied)) case 3 => Some((Plain(TDC), Implied))
    case 4 => Some((Plain(TXY), Implied)) case 5 => Some((Plain(TYX), Implied))
    case 6 => Some((Plain(STP), Implied)) case _ => Some((Plain(XCE), Implied))
  }

  function Column1C(row: nat): Entry {
    match row
    case 0 => None case 1 => Some((Register(BIT), AbsX))
    case 2 => Some((JML, AbsLong)) case 3 => Some((JMP, AbsIndX))
    case 4 => Some((Register(STZ), Abs)) case 5 => Some((Register(LDY), AbsX))
    case 6 => Some((JMP, AbsIndLong)) case _ => Some((JSR, AbsIndX))
  }

  function Column1E(row: nat): Entry {
    match row
    case 0 => Some((Shift(ASL), AbsX)) case 1 => Some((Shift(ROL), AbsX))
    case 2 => Some((Shift(LSR), AbsX)) case 3 => Some((Shift(ROR), AbsX))
    case 4 => Some((Register(STZ), AbsX)) case 5 => Some((Register(LDX), AbsY))
    case 6 => Some((Shift(DEC), AbsX)) case _ => Some((Shift(INC), AbsX))
  }

  function Opcode(opcode: byte): Entry {
    var row, low := opcode / 0x20, opcode % 0x20;
    match low
    case 0x00 => Column00(row)
    case 0x02 => Column02(row)
    case 0x04 => Column04(row)
    case 0x06 => Column06(row)
    case 0x08 => Column08(row)
    case 0x0A => Column0A(row)
    case 0x0B => Column0B(row)
    case 0x0C => Column0C(row)
    case 0x0E => Column0E(row)
    case 0x10 => Column10(row)
    case 0x14 => Column14(row)
    case 0x16 => Column16(row)
    case 0x18 => Column18(row)
    case 0x1A => Column1A(row)
    case 0x1B => Column1B(row)
    case 0x1C => Column1C(row)
    case 0x1E => Column1E(row)
    case _ => if ColumnMode(low).Some? then AluEntry(row, ColumnMode(low).value) else None
  }

  function OperandBytes(mode: Mode, aw: Width, iw: Width): nat {
    match mode
    case Implied => 0 case Accumulator => 0
    case ImmediateM => if aw.W16? then 2 else 1
    case ImmediateX => if iw.W16? then 2 else 1
    case Abs => 2 case AbsX => 2 case AbsY => 2 case AbsInd => 2 case AbsIndX => 2 case AbsIndLong => 2
    case Rel16 => 2 case Move => 2
    case AbsLong => 3 case AbsLongX => 3
    case _ => 1
  }

  /** Least significant byte first. */
  function Little(s: seq<byte>): nat
    decreases s
  {
    if s == [] then 0 else s[0] + 0x100 * Little(s[1..])
  }

  function Signed8(v: nat): int { if v < 0x80 then v else v - 0x100 }
  function Signed16(v: nat): int { if v < 0x8000 then v else v - 0x1_0000 }

  /** What the processor finds at `pc`; for a branch the address it goes to. */
  function Fetch(s: seq<byte>, pc: int, aw: Width, iw: Width): Option<Decoded> {
    if s == [] || Opcode(s[0]).None? then None
    else
      var (m, mode) := Opcode(s[0]).value;
      if |s| != 1 + OperandBytes(mode, aw, iw) then None
      else
        var raw := Little(s[1..]);
        Some(Decoded(m, mode, if mode.Rel8? then pc + |s| + Signed8(raw)
                              else if mode.Rel16? then pc + |s| + Signed16(raw) else raw))
  }

  // ---- What a line calls for ----

  /** The direct-page form of a mode if the value fits one byte, else the absolute one. */
  function Short(v: int, dp: Mode, wide: Mode): Mode { if v <= 0xFF then dp else wide }

  function AluCalls(op: Operand, v: int): Mode {
    match op
    case Immediate(_) => ImmediateM
    case Direct(_, wide) => if wide || v > 0xFFFF then AbsLong else Short(v, Dp, Abs)
    case DirectX(_, wide) => if wide || v > 0xFFFF then AbsLongX else Short(v, DpX, AbsX)
    case DirectY(_) => AbsY
    case StackS(_) => Stack
    case Indirect(_) => DpInd
    case IndirectX(_) => DpIndX
    case IndirectY(_) => DpIndY
    case LongIndirect(_) => DpLong
    case _ => DpLongY
  }

  /** The instructions without indirect forms read past parentheses. */
  function MemoryCalls(op: Operand, v: int): Mode {
    if op.DirectX? then Short(v, DpX, AbsX)
    else if op.DirectY? || op.IndirectY? then Short(v, DpY, AbsY)
    else Short(v, Dp, Abs)
  }

  /** `JSR (addr)` is taken for `JSR (addr,X)`, and `JSL (addr)`, `JML (addr)` for the long forms. */
  function JumpCalls(m: Mnemonic, op: Operand, v: int): (Mnemonic, Mode) {
    match m
    case JSR => (JSR, if op.Direct? then Abs else AbsIndX)
    case JMP =>
      if op.Direct? then if op.wide || v > 0xFFFF then (JML, AbsLong) else (JMP, Abs)
      else if op.Indirect? then (JMP, AbsInd)
      else if op.IndirectX? then (JMP, AbsIndX)
      else (JMP, AbsIndLong)
    case _ => (m, AbsLong)
  }

  /** The instruction a line names, `v` being its operand's value; INA and DEA are INC A and DEC A. */
  function Calls(m: Mnemonic, op: Operand, v: int): (Mnemonic, Mode) {
    match m
    case Plain(p) =>
      if p.INA? then (Shift(INC), Accumulator) else if p.DEA? then (Shift(DEC), Accumulator) else (m, Implied)
    case Shift(_) =>
      if op.NoOperand? || (op.Direct? && ReadAsAccumulator(op.e)) then (m, Accumulator) else (m, MemoryCalls(op, v))
    case Branch(_) => (m, Rel8)
    case BRL => (m, Rel16)
    case Alu(_) => (m, AluCalls(op, v))
    case Register(r) =>
      if op.Immediate? then (m, if r.BIT? then ImmediateM else ImmediateX) else (m, MemoryCalls(op, v))
    case REP => (m, Immediate8)
    case SEP => (m, Immediate8)
    case MVN => (m, Move)
    case MVP => (m, Move)
    case PEA => (m, Abs)
    case _ => JumpCalls(m, op, v)
  }

  function OperandInt(op: Operand, s: Symbols): int {
    if OperandValue(op, s).Some? then OperandValue(op, s).value else 0
  }

  /** The operand as the mode carries it: wrapped to its width, a branch target whole, the banks of a block move. */
  function Carried(mode: Mode, op: Operand, aw: Width, iw: Width, s: Symbols): int {
    if mode.Implied? || mode.Accumulator? then 0
    else if mode.Rel8? || mode.Rel16? then OperandInt(op, s)
    else if mode.Move? && op.Banks? && Eval(s, op.dst).Some? && Eval(s, op.src).Some? then
      Eval(s, op.dst).value % 0x100 + 0x100 * (Eval(s, op.src).value % 0x100)
    else
      match OperandBytes(mode, aw, iw)
      case 1 => OperandInt(op, s) % 0x100
      case 2 => OperandInt(op, s) % 0x1_0000
      case _ => OperandInt(op, s) % 0x100_0000
  }

  predicate ReadsBack(m: Mnemonic, op: Operand, pc: int, aw: Width, iw: Width, s: Symbols, bytes: seq<byte>) {
    var (n, mode) := Calls(m, op, OperandInt(op, s));
    Fetch(bytes, pc, aw, iw) == Some(Decoded(n, mode, Carried(mode, op, aw, iw, s)))
  }

  // ---- Little-endian operands ----

  lemma LittleOne(v: int)
    ensures Little(B1(v)) == v % 0x100
  {
    assert B1(v)[1..] == [];
  }

  lemma LittleTwo(v: int)
    ensures Little(B2(v)) == v % 0x1_0000
  {
    assert B2(v)[1..] == [v / 0x100 % 0x100] && [v / 0x100 % 0x100][1..] == [];
    LittlePair(v % 0x100, v / 0x100 % 0x100);
    TwoBytes(v);
  }

  lemma LittleThree(v: int)
    ensures Little(B3(v)) == v % 0x100_0000
  {
    var a, b := v / 0x100 % 0x100, v / 0x1_0000 % 0x100;
    assert B3(v)[1..] == [a, b] && [a, b][1..] == [b] && [b][1..] == [];
    assert Little([b]) == b && Little([a, b]) == a + 0x100 * b;
    ThreeBytes(v);
  }

  lemma TwoBytes(v: int)
    ensures v % 0x1_0000 == v % 0x100 + 0x100 * (v / 0x100 % 0x100)
  {
  }

  lemma ThreeBytes(v: int)
    ensures v % 0x100_0000 == v % 0x100 + 0x100 * (v / 0x100 % 0x100) + 0x1_0000 * (v / 0x1_0000 % 0x100)
  {
    assert v / 0x1_0000 == v / 0x100 / 0x100;
  }

  lemma LittlePair(a: byte, b: byte)
    ensures Little([a, b]) == a + 0x100 * b
  {
    assert [a, b][1..] == [b] && [b][1..] == [];
    assert Little([b]) == b;
  }

  /** An opcode followed by operand bytes. */
  lemma FetchOne(opcode: byte, v: int, pc: int, aw: Width, iw: Width)
    requires Opcode(opcode).Some? && OperandBytes(Opcode(opcode).value.1, aw, iw) == 1
    requires !Opcode(opcode).value.1.Rel8?
    ensures Fetch([opcode] + B1(v), pc, aw, iw)
            == Some(Decoded(Opcode(opcode).value.0, Opcode(opcode).value.1, v % 0x100))
  {
    hide Opcode, Little;
    assert ([opcode] + B1(v))[1..] == B1(v);
    LittleOne(v);
  }

  lemma FetchTwo(opcode: byte, v: int, pc: int, aw: Width, iw: Width)
    requires Opcode(opcode).Some? && OperandBytes(Opcode(opcode).value.1, aw, iw) == 2
    requires !Opcode(opcode).value.1.Rel16?
    ensures Fetch([opcode] + B2(v), pc, aw, iw)
            == Some(Decoded(Opcode(opcode).value.0, Opcode(opcode).value.1, v % 0x1_0000))
  {
    hide Opcode, Little, B2;
    assert |B2(v)| == 2 by { TwoLong(v); }
    assert ([opcode] + B2(v))[1..] == B2(v);
    LittleTwo(v);
  }

  lemma TwoLong(v: int)
    ensures |B2(v)| == 2
  {
  }

  lemma ThreeLong(v: int)
    ensures |B3(v)| == 3
  {
  }

  lemma FetchThree(opcode: byte, v: int, pc: int, aw: Width, iw: Width)
    requires Opcode(opcode).Some? && OperandBytes(Opcode(opcode).value.1, aw, iw) == 3
    ensures Fetch([opcode] + B3(v), pc, aw, iw)
            == Some(Decoded(Opcode(opcode).value.0, Opcode(opcode).value.1, v % 0x100_0000))
  {
    hide Opcode, Little, B3;
    assert |B3(v)| == 3 by { ThreeLong(v); }
    assert ([opcode] + B3(v))[1..] == B3(v);
    LittleThree(v);
  }

  /** A mode that carries the operand's value in one, two or three bytes. */
  predicate CarriesValue(mode: Mode) {
    !mode.Implied? && !mode.Accumulator? && !mode.Rel8? && !mode.Rel16? && !mode.Move?
  }

  lemma CarriedBytes(mode: Mode, op: Operand, aw: Width, iw: Width, s: Symbols)
    requires CarriesValue(mode)
    ensures 1 <= OperandBytes(mode, aw, iw) <= 3
    ensures Carried(mode, op, aw, iw, s)
            == OperandInt(op, s) % (if OperandBytes(mode, aw, iw) == 1 then 0x100
                                    else if OperandBytes(mode, aw, iw) == 2 then 0x1_0000 else 0x100_0000)
  {
    hide OperandInt, Eval;
  }

  // ---- Class by class ----

  lemma AluPlace(a: AluOp, low: nat)
    requires low < 0x20
    ensures (AluBase(a) + low) % 0x20 == low && AluRow((AluBase(a) + low) / 0x20) == a
    ensures (AluBase(a) + low) / 0x20 == 4 <==> a.STA?
  {
    assert (AluBase(a) + low) / 0x20 == AluBase(a) / 0x20;
  }

  lemma AluOpcode(a: AluOp, low: nat)
    requires AluMode(low) && low != 0x13
    ensures ColumnMode(low).Some?
    ensures (a.STA? && low == 0x09) || Opcode(AluBase(a) + low) == Some((Alu(a), ColumnMode(low).value))
  {
    hide AluBase, AluRow;
    AluPlace(a, low);
  }

  /** The column and the operand bytes of an accumulator instruction. */
  lemma AluForm(a: AluOp, op: Operand, aw: Width, iw: Width, s: Symbols)
    requires EncodeAlu(a, op, aw, s).Some?
    ensures OperandValue(op, s).Some?
    ensures var v := OperandInt(op, s);
            var bytes := EncodeAlu(a, op, aw, s).value;
            var low, mode := bytes[0] - AluBase(a), AluCalls(op, v);
            && low >= 0 && AluMode(low) && low != 0x13 && !(a.STA? && low == 0x09)
            && ColumnMode(low) == Some(mode) && CarriesValue(mode)
            && bytes == [bytes[0]] + match OperandBytes(mode, aw, iw) case 1 => B1(v) case 2 => B2(v) case _ => B3(v)
  {
    hide Eval, AluBase, B1, B2, B3;
  }

  lemma AluReads(a: AluOp, op: Operand, pc: int, aw: Width, iw: Width, s: Symbols)
    requires EncodeAlu(a, op, aw, s).Some?
    ensures ReadsBack(Alu(a), op, pc, aw, iw, s, EncodeAlu(a, op, aw, s).value)
  {
    hide Eval, AluBase, AluCalls, EncodeAlu, Opcode, Fetch, Carried, B1, B2, B3, OperandInt, OperandBytes, ColumnMode;
    var v, bytes := OperandInt(op, s), EncodeAlu(a, op, aw, s).value;
    AluForm(a, op, aw, iw, s);
    AluOpcode(a, bytes[0] - AluBase(a));
    CarriedBytes(AluCalls(op, v), op, aw, iw, s);
    match OperandBytes(AluCalls(op, v), aw, iw) {
      case 1 => FetchOne(bytes[0], v, pc, aw, iw);
      case 2 => FetchTwo(bytes[0], v, pc, aw, iw);
      case _ => FetchThree(bytes[0], v, pc, aw, iw);
    }
  }

  /** The one-byte instructions, from the two halves of the map. */
  predicate UpperHalf(p: PlainOp) {
    p.NOP? || p.SED? || p.CLD? || p.CLV? || p.TAX? || p.TAY? || p.TXA? || p.TYA? || p.TSX? || p.TXS? || p.TXY? || p.TYX?
    || p.XCE? || p.PHX? || p.PLX? || p.PHB? || p.PLB? || p.WAI? || p.STP? || p.DEX? || p.INX? || p.DEY? || p.INY?
  }

  lemma UpperNames(p: PlainOp)
    requires UpperHalf(p)
    ensures Opcode(PlainOpcode(p)) == Some((Plain(p), Implied))
  {
  }

  lemma LowerNames(p: PlainOp)
    requires !UpperHalf(p) && !p.INA? && !p.DEA?
    ensures Opcode(PlainOpcode(p)) == Some((Plain(p), Implied))
  {
  }

  lemma PlainNames(p: PlainOp)
    ensures Opcode(PlainOpcode(p)) == Some(Calls(Plain(p), NoOperand, 0))
  {
    if p.INA? || p.DEA? {
    } else {
      hide Opcode, PlainOpcode, UpperHalf;
      if UpperHalf(p) { UpperNames(p); } else { LowerNames(p); }
    }
  }

  lemma PlainReads(p: PlainOp, op: Operand, pc: int, aw: Width, iw: Width, s: Symbols)
    ensures ReadsBack(Plain(p), op, pc, aw, iw, s, [PlainOpcode(p)])
  {
    hide Little, Opcode, PlainOpcode;
    PlainNames(p);
    assert [PlainOpcode(p)][1..] == [];
    LittleNone();
  }

  lemma LittleNone()
    ensures Little([]) == 0
  {
  }

  lemma AccumulatorNames(h: ShiftOp)
    ensures Opcode(AccumulatorOpcode(h)) == Some((Shift(h), Accumulator))
  {
  }

  lemma AccumulatorReads(h: ShiftOp, op: Operand, pc: int, aw: Width, iw: Width, s: Symbols)
    requires op.NoOperand? || (op.Direct? && ReadAsAccumulator(op.e))
    ensures ReadsBack(Shift(h), op, pc, aw, iw, s, [AccumulatorOpcode(h)])
  {
    hide Little, Opcode, AccumulatorOpcode, Eval;
    AccumulatorNames(h);
    assert [AccumulatorOpcode(h)][1..] == [];
    LittleNone();
  }

  /** The opcodes of a pair name one instruction in its direct-page and its absolute mode. */
  predicate PairNames(opcodes: (Option<byte>, Option<byte>), m: Mnemonic, dp: Mode, wide: Mode) {
    && (opcodes.0.Some? ==> Opcode(opcodes.0.value) == Some((m, dp)))
    && (opcodes.1.Some? ==> Opcode(opcodes.1.value) == Some((m, wide)))
  }

  function PairModes(x: Index): (Mode, Mode) {
    match x case NoIndex => (Dp, Abs) case X => (DpX, AbsX) case Y => (DpY, AbsY)
  }

  lemma ShiftPairNames(h: ShiftOp, x: Index)
    ensures PairNames(ShiftOpcodes(h, x), Shift(h), PairModes(x).0, PairModes(x).1)
  {
  }

  predicate LoadsOrTests(r: RegisterOp) { r.STZ? || r.BIT? || r.LDX? || r.LDY? }

  lemma LoadPairNames(r: RegisterOp, x: Index)
    requires LoadsOrTests(r)
    ensures PairNames(RegisterOpcodes(r, x), Register(r), PairModes(x).0, PairModes(x).1)
  {
  }

  lemma StorePairNames(r: RegisterOp, x: Index)
    requires !LoadsOrTests(r)
    ensures PairNames(RegisterOpcodes(r, x), Register(r), PairModes(x).0, PairModes(x).1)
  {
  }

  lemma RegisterPairNames(r: RegisterOp, x: Index)
    ensures PairNames(RegisterOpcodes(r, x), Register(r), PairModes(x).0, PairModes(x).1)
  {
    hide PairNames, RegisterOpcodes, PairModes, LoadsOrTests;
    if LoadsOrTests(r) { LoadPairNames(r, x); } else { StorePairNames(r, x); }
  }

  lemma PairCalls(m: Mnemonic, op: Operand, v: int)
    requires (m.Shift? && !(op.NoOperand? || (op.Direct? && ReadAsAccumulator(op.e))))
             || (m.Register? && !op.Immediate?)
    ensures Calls(m, op, v) == (m, if v <= 0xFF then PairModes(IndexOf(op)).0 else PairModes(IndexOf(op)).1)
  {
    hide ReadAsAccumulator;
  }

  lemma PairWidths(x: Index, aw: Width, iw: Width)
    ensures CarriesValue(PairModes(x).0) && OperandBytes(PairModes(x).0, aw, iw) == 1
    ensures CarriesValue(PairModes(x).1) && OperandBytes(PairModes(x).1, aw, iw) == 2
  {
  }

  lemma PairReads(m: Mnemonic, op: Operand, opcodes: (Option<byte>, Option<byte>), pc: int, aw: Width, iw: Width,
                  s: Symbols)
    requires PairNames(opcodes, m, PairModes(IndexOf(op)).0, PairModes(IndexOf(op)).1)
    requires (m.Shift? && !(op.NoOperand? || (op.Direct? && ReadAsAccumulator(op.e))))
             || (m.Register? && !op.Immediate?)
    requires EncodeDirect(opcodes, IndexedValue(op, s)).Some?
    ensures ReadsBack(m, op, pc, aw, iw, s, EncodeDirect(opcodes, IndexedValue(op, s)).value)
  {
    hide Eval, Opcode, Fetch, B1, B2, Calls, Carried, PairModes, OperandBytes, ReadAsAccumulator, IndexOf;
    var v := IndexedValue(op, s).value;
    assert OperandInt(op, s) == v;
    PairCalls(m, op, v);
    PairWidths(IndexOf(op), aw, iw);
    CarriedBytes(Calls(m, op, v).1, op, aw, iw, s);
    if v <= 0xFF {
      FetchOne(opcodes.0.value, v, pc, aw, iw);
    } else {
      FetchTwo(opcodes.1.value, v, pc, aw, iw);
    }
  }

  lemma ShiftReads(h: ShiftOp, op: Operand, pc: int, aw: Width, iw: Width, s: Symbols)
    requires EncodeShift(h, op, s).Some?
    ensures ReadsBack(Shift(h), op, pc, aw, iw, s, EncodeShift(h, op, s).value)
  {
    hide Eval, ShiftOpcodes, AccumulatorOpcode, ReadsBack, PairNames, EncodeDirect;
    if op.NoOperand? || (op.Direct? && ReadAsAccumulator(op.e)) {
      AccumulatorReads(h, op, pc, aw, iw, s);
    } else {
      ShiftPairNames(h, IndexOf(op));
      PairReads(Shift(h), op, ShiftOpcodes(h, IndexOf(op)), pc, aw, iw, s);
    }
  }

  lemma ImmediateNames(r: RegisterOp)
    ensures ImmediateOpcode(Register(r)).Some? ==>
              Opcode(ImmediateOpcode(Register(r)).value)
              == Some((Register(r), if r.BIT? then ImmediateM else ImmediateX))
  {
  }

  lemma RegisterReads(r: RegisterOp, op: Operand, pc: int, aw: Width, iw: Width, s: Symbols)
    requires EncodeRegister(r, op, aw, iw, s).Some?
    ensures ReadsBack(Register(r), op, pc, aw, iw, s, EncodeRegister(r, op, aw, iw, s).value)
  {
    hide Eval, RegisterOpcodes, ImmediateOpcode, PairNames, EncodeDirect, Opcode, Fetch, B1, B2;
    if op.Immediate? {
      ImmediateNames(r);
      var opcode, v := ImmediateOpcode(Register(r)).value, Eval(s, op.e).value;
      if (if r.BIT? then aw else iw).W16? {
        FetchTwo(opcode, v, pc, aw, iw);
      } else {
        FetchOne(opcode, v, pc, aw, iw);
      }
    } else {
      RegisterPairNames(r, IndexOf(op));
      PairReads(Register(r), op, RegisterOpcodes(r, IndexOf(op)), pc, aw, iw, s);
    }
  }

  lemma JumpReads(m: Mnemonic, op: Operand, pc: int, aw: Width, iw: Width, s: Symbols)
    requires (m.JSR? || m.JSL? || m.JMP? || m.JML?) && EncodeJump(m, op, s).Some?
    ensures ReadsBack(m, op, pc, aw, iw, s, EncodeJump(m, op, s).value)
  {
    hide Eval, Fetch, B2, B3, Opcode;
    JumpOpcodes();
    var v := Eval(s, op.e).value;
    var bytes := EncodeJump(m, op, s).value;
    if Calls(m, op, v).1.AbsLong? {
      FetchThree(bytes[0], v, pc, aw, iw);
    } else {
      FetchTwo(bytes[0], v, pc, aw, iw);
    }
  }

  lemma JumpOpcodes()
    ensures Opcode(0x20) == Some((JSR, Abs)) && Opcode(0xFC) == Some((JSR, AbsIndX))
    ensures Opcode(0x22) == Some((JSL, AbsLong)) && Opcode(0x5C) == Some((JML, AbsLong))
    ensures Opcode(0x4C) == Some((JMP, Abs)) && Opcode(0x6C) == Some((JMP, AbsInd))
    ensures Opcode(0x7C) == Some((JMP, AbsIndX)) && Opcode(0xDC) == Some((JMP, AbsIndLong))
  {
  }

  // ---- Branches ----

  lemma SignedOne(d: int)
    requires -0x80 <= d <= 0x7F
    ensures Signed8(d % 0x100) == d
  {
  }

  lemma SignedTwo(d: int)
    requires -0x8000 <= d <= 0x7FFF
    ensures Signed16(d % 0x1_0000) == d
  {
  }

  lemma BranchNames(b: BranchOp)
    ensures Opcode(BranchOpcode(b)) == Some((Branch(b), Rel8))
  {
  }

  /** The emitted displacement leads exactly to the target. */
  lemma BranchReads(b: BranchOp, op: Operand, pc: int, aw: Width, iw: Width, s: Symbols)
    requires Encode(Branch(b), op, pc, aw, iw, s).Some?
    ensures ReadsBack(Branch(b), op, pc, aw, iw, s, Encode(Branch(b), op, pc, aw, iw, s).value)
  {
    hide Eval, Opcode, Little, BranchOpcode, B1, Signed8;
    var d := Value(op, s).value - (pc + 2);
    BranchNames(b);
    LittleOne(d);
    SignedOne(d);
    assert |B1(d)| == 1 by { OneLong(d); }
    assert ([BranchOpcode(b)] + B1(d))[1..] == B1(d);
  }

  lemma OneLong(v: int)
    ensures |B1(v)| == 1
  {
  }

  lemma LongBranchReads(op: Operand, pc: int, aw: Width, iw: Width, s: Symbols)
    requires Encode(BRL, op, pc, aw, iw, s).Some?
    ensures ReadsBack(BRL, op, pc, aw, iw, s, Encode(BRL, op, pc, aw, iw, s).value)
  {
    hide Eval, Opcode, Little, B2, Signed16;
    var d := Value(op, s).value - (pc + 3);
    RelativeNames();
    LittleTwo(d);
    SignedTwo(d);
    assert |B2(d)| == 2 by { TwoLong(d); }
    var opcode: byte := 0x82;
    assert ([opcode] + B2(d))[1..] == B2(d);
  }

  lemma RelativeNames()
    ensures Opcode(0x82) == Some((BRL, Rel16)) && Opcode(0xC2) == Some((REP, Immediate8))
    ensures Opcode(0xE2) == Some((SEP, Immediate8)) && Opcode(0xF4) == Some((PEA, Abs))
    ensures Opcode(0x54) == Some((MVN, Move)) && Opcode(0x44) == Some((MVP, Move))
  {
  }

  lemma MoveReads(m: Mnemonic, op: Operand, pc: int, aw: Width, iw: Width, s: Symbols)
    requires (m.MVN? || m.MVP?) && Encode(m, op, pc, aw, iw, s).Some?
    ensures ReadsBack(m, op, pc, aw, iw, s, Encode(m, op, pc, aw, iw, s).value)
  {
    hide Eval, Opcode, Little;
    RelativeNames();
    var a, b := Eval(s, op.dst).value % 0x100, Eval(s, op.src).value % 0x100;
    LittlePair(a, b);
    assert Encode(m, op, pc, aw, iw, s).value[1..] == [a, b];
  }

  lemma WordReads(m: Mnemonic, op: Operand, pc: int, aw: Width, iw: Width, s: Symbols)
    requires (m.REP? || m.SEP? || m.PEA?) && Encode(m, op, pc, aw, iw, s).Some?
    ensures ReadsBack(m, op, pc, aw, iw, s, Encode(m, op, pc, aw, iw, s).value)
  {
    hide Eval, Opcode, Fetch, B1, B2;
    RelativeNames();
    var v := Hashed(op, s).value;
    if m.PEA? {
      FetchTwo(0xF4, v, pc, aw, iw);
    } else {
      FetchOne(if m.REP? then 0xC2 else 0xE2, v, pc, aw, iw);
    }
  }

  /**
   Every instruction the assembler encodes is, for the processor, the instruction the line names: the
   same mnemonic, the mode its operand's form and value call for, and the operand's value wrapped to
   that mode's width. A branch goes exactly to its target.
   */
  lemma EncodedReadsBack(m: Mnemonic, op: Operand, pc: int, aw: Width, iw: Width, s: Symbols)
    requires Encode(m, op, pc, aw, iw, s).Some?
    ensures ReadsBack(m, op, pc, aw, iw, s, Encode(m, op, pc, aw, iw, s).value)
  {
    hide ReadsBack, EncodeAlu, EncodeRegister, EncodeShift, EncodeJump, PlainOpcode;
    match m {
      case Plain(p) => PlainReads(p, op, pc, aw, iw, s);
      case Shift(h) => ShiftReads(h, op, pc, aw, iw, s);
      case Branch(b) => BranchReads(b, op, pc, aw, iw, s);
      case BRL => LongBranchReads(op, pc, aw, iw, s);
      case Alu(a) => AluReads(a, op, pc, aw, iw, s);
      case Register(r) => RegisterReads(r, op, pc, aw, iw, s);
      case MVN => MoveReads(m, op, pc, aw, iw, s);
      case MVP => MoveReads(m, op, pc, aw, iw, s);
      case JSR => JumpReads(m, op, pc, aw, iw, s);
      case JSL => JumpReads(m, op, pc, aw, iw, s);
      case JMP => JumpReads(m, op, pc, aw, iw, s);
      case JML => JumpReads(m, op, pc, aw, iw, s);
      case _ => WordReads(m, op, pc, aw, iw, s);
    }
  }

  // ---- What can be encoded ----

  /** The modes the processor has for the instructions outside the accumulator columns. */
  predicate RegisterHas(r: RegisterOp, mode: Mode) {
    match r
    case STZ => mode.Dp? || mode.DpX? || mode.Abs? || mode.AbsX?
    case BIT => mode.ImmediateM? || mode.Dp? || mode.DpX? || mode.Abs? || mode.AbsX?
    case LDX => mode.ImmediateX? || mode.Dp? || mode.DpY? || mode.Abs? || mode.AbsY?
    case LDY => mode.ImmediateX? || mode.Dp? || mode.DpX? || mode.Abs? || mode.AbsX?
    case STX => mode.Dp? || mode.DpY? || mode.Abs?
    case STY => mode.Dp? || mode.DpX? || mode.Abs?
    case _ => mode.ImmediateX? || mode.Dp? || mode.Abs?
  }

  predicate ShiftHas(mode: Mode) { mode.Dp? || mode.DpX? || mode.Abs? || mode.AbsX? }

  predicate Simple(op: Operand) { op.Direct? || op.Indirect? }
  predicate Indexed(op: Operand) { Simple(op) || op.DirectX? || op.DirectY? || op.IndirectY? }

  predicate JumpTakes(m: Mnemonic, op: Operand) {
    match m
    case JSR => Simple(op) || op.IndirectX?
    case JMP => Simple(op) || op.IndirectX? || op.LongIndirect?
    case _ => Simple(op)
  }

  /** The operand forms and values a mnemonic takes; an operand has to evaluate wherever it is used. */
  predicate Takes(m: Mnemonic, op: Operand, pc: int, s: Symbols) {
    var v := OperandInt(op, s);
    match m
    case Plain(_) => true
    case WDM => false
    case Unknown => false
    case MVN => op.Banks? && Eval(s, op.dst).Some? && Eval(s, op.src).Some?
    case MVP => op.Banks? && Eval(s, op.dst).Some? && Eval(s, op.src).Some?
    case Shift(_) =>
      || op.NoOperand? || (op.Direct? && ReadAsAccumulator(op.e))
      || (Indexed(op) && OperandValue(op, s).Some? && ShiftHas(MemoryCalls(op, v)))
    case _ =>
      && OperandValue(op, s).Some?
      && match m
         case Alu(a) => !(a.STA? && op.Immediate?)
         case Register(r) => (op.Immediate? || Indexed(op)) && RegisterHas(r, Calls(m, op, v).1)
         case Branch(_) => Simple(op) && pc + 2 - 0x80 <= v <= pc + 2 + 0x7F
         case BRL => Simple(op) && pc + 3 - 0x8000 <= v <= pc + 3 + 0x7FFF
         case REP => op.Immediate? || Simple(op)
         case SEP => op.Immediate? || Simple(op)
         case PEA => op.Immediate? || Simple(op)
         case _ => JumpTakes(m, op)
  }

  lemma MemoryTakes(m: Mnemonic, op: Operand, pc: int, aw: Width, iw: Width, s: Symbols)
    requires m.Shift? || m.Register?
    ensures Encode(m, op, pc, aw, iw, s).Some? <==> Takes(m, op, pc, s)
  {
    hide Eval, B1, B2, ShiftBase, AluBase, AccumulatorOpcode, ReadAsAccumulator;
  }

  /** An instruction is encoded exactly if the processor has it in the mode called for and the operand fits. */
  lemma EncodesExactly(m: Mnemonic, op: Operand, pc: int, aw: Width, iw: Width, s: Symbols)
    ensures Encode(m, op, pc, aw, iw, s).Some? <==> Takes(m, op, pc, s)
  {
    if m.Shift? || m.Register? {
      hide Encode, Takes;
      MemoryTakes(m, op, pc, aw, iw, s);
    } else {
      hide Eval, B1, B2, B3, AluBase, PlainOpcode, BranchOpcode, ReadAsAccumulator;
    }
  }
}
