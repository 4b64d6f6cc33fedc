/** 65C816 operands and mnemonics: the size a line is given in pass 1 and the bytes it gets in pass 2. */
module Isa {
  import opened Timing
  import opened Expression

  datatype Width = W8 | W16

  /** `wide`: written as a dollar sign and more than four further characters. */
  datatype Operand =
    | NoOperand
    | Immediate(e: Expr)
    | Direct(e: Expr, wide: bool)
    | DirectX(e: Expr, wide: bool)
    | DirectY(e: Expr)
    | StackS(e: Expr)
    | Indirect(e: Expr)
    | IndirectX(e: Expr)
    | IndirectY(e: Expr)
    | LongIndirect(e: Expr)
    | LongIndirectY(e: Expr)
    | Banks(dst: Expr, src: Expr)

  datatype PlainOp =
    | NOP | SEI | CLI | CLC | SEC | SED | CLD | CLV
    | TAX | TAY | TXA | TYA | TSX | TXS | TXY | TYX | TCD | TDC | TCS | TSC | XCE
    | PHP | PLP | PHA | PLA | PHX | PLX | PHY | PLY | PHB | PLB | PHD | PLD | PHK
    | RTI | RTS | RTL | WAI | STP | DEX | INX | DEY | INY | DEA | INA

  datatype ShiftOp = ASL | ROL | LSR | ROR | DEC | INC
  datatype BranchOp = BRA | BEQ | BNE | BCS | BCC | BMI | BPL | BVC | BVS
  datatype AluOp = ORA | AND | EOR | ADC | STA | LDA | CMP | SBC
  datatype RegisterOp = STZ | BIT | LDX | LDY | STX | STY | CPX | CPY

  datatype Mnemonic =
    | Plain(plain: PlainOp)
    | Shift(shift: ShiftOp)
    | Branch(branch: BranchOp)
    | Alu(alu: AluOp)
    | Register(reg: RegisterOp)
    | BRL | REP | SEP | MVN | MVP | JSR | JSL | JMP | JML | PEA
    | WDM | Unknown

  // ---- Opcodes ----

  function PlainOpcode(p: PlainOp): byte {
    match p
    case NOP => 0xEA case SEI => 0x78 case CLI => 0x58 case CLC => 0x18 case SEC => 0x38
    case SED => 0xF8 case CLD => 0xD8 case CLV => 0xB8 case TAX => 0xAA case TAY => 0xA8
    case TXA => 0x8A case TYA => 0x98 case TSX => 0xBA case TXS => 0x9A case TXY => 0x9B
    case TYX => 0xBB case TCD => 0x5B case TDC => 0x7B case TCS => 0x1B case TSC => 0x3B
    case XCE => 0xFB case PHP => 0x08 case PLP => 0x28 case PHA => 0x48 case PLA => 0x68
    case PHX => 0xDA case PLX => 0xFA case PHY => 0x5A case PLY => 0x7A case PHB => 0x8B
    case PLB => 0xAB case PHD => 0x0B case PLD => 0x2B case PHK => 0x4B case RTI => 0x40
    case RTS => 0x60 case RTL => 0x6B case WAI => 0xCB case STP => 0xDB case DEX => 0xCA
    case INX => 0xE8 case DEY => 0x88 case INY => 0xC8 case DEA => 0x3A case INA => 0x1A
  }

  function AccumulatorOpcode(s: ShiftOp): byte {
    match s case ASL => 0x0A case ROL => 0x2A case LSR => 0x4A case ROR => 0x6A case DEC => 0x3A case INC => 0x1A
  }

  function ShiftBase(s: ShiftOp): (b: byte)
    ensures b <= 0xE6 && b % 0x20 == 6
  {
    match s case ASL => 0x06 case ROL => 0x26 case LSR => 0x46 case ROR => 0x66 case DEC => 0xC6 case INC => 0xE6
  }

  function BranchOpcode(b: BranchOp): byte {
    match b
    case BRA => 0x80 case BEQ => 0xF0 case BNE => 0xD0 case BCS => 0xB0 case BCC => 0x90
    case BMI => 0x30 case BPL => 0x10 case BVC => 0x50 case BVS => 0x70
  }

  function AluBase(a: AluOp): (b: byte)
    ensures b <= 0xE0 && b % 0x20 == 0
  {
    match a
    case ORA => 0x00 case AND => 0x20 case EOR => 0x40 case ADC => 0x60
    case STA => 0x80 case LDA => 0xA0 case CMP => 0xC0 case SBC => 0xE0
  }

  datatype Index = NoIndex | X | Y

  /** Direct-page and absolute opcodes of the mnemonics that have no other memory form. */
  function RegisterOpcodes(r: RegisterOp, x: Index): (Option<byte>, Option<byte>) {
    match (r, x)
    case (STZ, NoIndex) => (Some(0x64), Some(0x9C))
    case (STZ, X) => (Some(0x74), Some(0x9E))
    case (BIT, NoIndex) => (Some(0x24), Some(0x2C))
    case (BIT, X) => (Some(0x34), Some(0x3C))
    case (LDX, NoIndex) => (Some(0xA6), Some(0xAE))
    case (LDX, Y) => (Some(0xB6), Some(0xBE))
    case (LDY, NoIndex) => (Some(0xA4), Some(0xAC))
    case (LDY, X) => (Some(0xB4), Some(0xBC))
    case (STX, NoIndex) => (Some(0x86), Some(0x8E))
    case (STX, Y) => (Some(0x96), None)
    case (STY, NoIndex) => (Some(0x84), Some(0x8C))
    case (STY, X) => (Some(0x94), None)
    case (CPX, NoIndex) => (Some(0xE4), Some(0xEC))
    case (CPY, NoIndex) => (Some(0xC4), Some(0xCC))
    case _ => (None, None)
  }

  function ShiftOpcodes(s: ShiftOp, x: Index): (Option<byte>, Option<byte>) {
    match x
    case NoIndex => (Some(ShiftBase(s)), Some(ShiftBase(s) + 0x08))
    case X => (Some(ShiftBase(s) + 0x10), Some(ShiftBase(s) + 0x18))
    case Y => (None, None)
  }

  function ImmediateOpcode(m: Mnemonic): Option<byte> {
    match m
    case Alu(a) => if a.STA? then None else Some(AluBase(a) + 0x09)
    case Register(r) =>
      if r.LDX? then Some(0xA2)
      else if r.LDY? then Some(0xA0)
      else if r.CPX? then Some(0xE0)
      else if r.CPY? then Some(0xC0)
      else if r.BIT? then Some(0x89)
      else None
    case _ => None
  }

  // ---- Pass 1: size ----

  /** How many bytes a memory operand is given for its value; an unresolved one is taken as absolute. */
  function ValueSize(v: Option<int>): (n: nat)
    ensures 2 <= n <= 4
  {
    if v.None? then 3 else if v.value > 0xFFFF then 4 else if v.value <= 0xFF then 2 else 3
  }

  function WidthSize(w: Width): nat { if w.W16? then 2 else 1 }

  function ImmediateSize(m: Mnemonic, aw: Width, iw: Width): (n: nat)
    ensures 2 <= n <= 3
  {
    match m
    case Alu(_) => 1 + WidthSize(aw)
    case Register(r) =>
      if r.BIT? then 1 + WidthSize(aw)
      else if r.LDX? || r.LDY? || r.CPX? || r.CPY? then 1 + WidthSize(iw)
      else 2
    case _ => 2
  }

  predicate AccumulatorName(op: Operand) { op.Direct? && op.e == Sym("A") }

  function OperandSize(m: Mnemonic, op: Operand, aw: Width, iw: Width, s: Symbols): (n: nat)
    ensures 1 <= n <= 4
  {
    match op
    case NoOperand => 1
    case Immediate(_) => ImmediateSize(m, aw, iw)
    case Banks(_, _) => ImmediateSize(m, aw, iw)
    case LongIndirect(_) => 2
    case LongIndirectY(_) => 2
    case Indirect(_) => if m.JMP? || m.JSR? then 3 else 2
    case IndirectX(_) => if m.JMP? || m.JSR? then 3 else 2
    case IndirectY(_) => if m.JMP? || m.JSR? then 3 else 2
    case DirectX(e, wide) => if wide then 4 else ValueSize(Eval(s, e))
    case DirectY(e) =>
      if m != Register(LDX) && m != Register(STX) then 3
      else if ValueSize(Eval(s, e)) == 2 then 2 else 3
    case StackS(_) => 2
    case Direct(e, wide) =>
      if m.JMP? || m.JSR? then 3 else if m.JSL? || m.JML? then 4
      else if wide then 4 else ValueSize(Eval(s, e))
  }

  function InstructionSize(m: Mnemonic, op: Operand, aw: Width, iw: Width, s: Symbols): (n: nat)
    ensures 1 <= n <= 4
  {
    match m
    case Plain(_) => 1
    case WDM => 1
    case MVN => 3
    case MVP => 3
    case Branch(_) => 2
    case BRL => 3
    case Shift(_) => if op.NoOperand? || AccumulatorName(op) then 1 else OperandSize(m, op, aw, iw, s)
    case _ => OperandSize(m, op, aw, iw, s)
  }

  // ---- Pass 2: bytes ----

  function B1(v: int): seq<byte> { [v % 0x100] }
  function B2(v: int): seq<byte> { [v % 0x100, v / 0x100 % 0x100] }
  function B3(v: int): seq<byte> { [v % 0x100, v / 0x100 % 0x100, v / 0x1_0000 % 0x100] }

  /** An expression alone, in parentheses or not, as the encoders without indirect forms read it. */
  function Value(op: Operand, s: Symbols): Option<int> {
    if op.Direct? || op.Indirect? then Eval(s, op.e) else None
  }

  function Hashed(op: Operand, s: Symbols): Option<int> {
    if op.Immediate? then Eval(s, op.e) else Value(op, s)
  }

  function IndexOf(op: Operand): Index {
    if op.DirectX? then X else if op.DirectY? || op.IndirectY? then Y else NoIndex
  }

  function IndexedValue(op: Operand, s: Symbols): Option<int> {
    if op.Direct? || op.Indirect? || op.DirectX? || op.DirectY? || op.IndirectY? then Eval(s, op.e) else None
  }

  function EncodeImmediate(m: Mnemonic, w: Width, v: Option<int>): Option<seq<byte>> {
    var opcode := ImmediateOpcode(m);
    if opcode.None? || v.None? then None else Some([opcode.value] + if w.W16? then B2(v.value) else B1(v.value))
  }

  /** The direct-page form when the value fits it, else the absolute form. */
  function EncodeDirect(opcodes: (Option<byte>, Option<byte>), v: Option<int>): Option<seq<byte>> {
    if v.None? then None
    else if v.value <= 0xFF then if opcodes.0.None? then None else Some([opcodes.0.value] + B1(v.value))
    else if opcodes.1.None? then None else Some([opcodes.1.value] + B2(v.value))
  }

  function EncodeAlu(a: AluOp, op: Operand, aw: Width, s: Symbols): Option<seq<byte>> {
    var b := AluBase(a);
    if op.NoOperand? || op.Banks? then None
    else if op.Immediate? then EncodeImmediate(Alu(a), aw, Eval(s, op.e))
    else if Eval(s, op.e).None? then None
    else
      var v := Eval(s, op.e).value;
      Some(match op
           case IndirectX(_) => [b + 0x01] + B1(v)
           case IndirectY(_) => [b + 0x11] + B1(v)
           case Indirect(_) => [b + 0x12] + B1(v)
           case LongIndirectY(_) => [b + 0x17] + B1(v)
           case LongIndirect(_) => [b + 0x07] + B1(v)
           case StackS(_) => [b + 0x03] + B1(v)
           case DirectY(_) => [b + 0x19] + B2(v)
           case DirectX(_, wide) =>
             if wide || v > 0xFFFF then [b + 0x1F] + B3(v)
             else if v <= 0xFF then [b + 0x15] + B1(v)
             else [b + 0x1D] + B2(v)
           case Direct(_, wide) =>
             if wide || v > 0xFFFF then [b + 0x0F] + B3(v)
             else if v <= 0xFF then [b + 0x05] + B1(v)
             else [b + 0x0D] + B2(v))
  }

  function EncodeRegister(r: RegisterOp, op: Operand, aw: Width, iw: Width, s: Symbols): Option<seq<byte>> {
    if op.Immediate? then EncodeImmediate(Register(r), if r.BIT? then aw else iw, Eval(s, op.e))
    else EncodeDirect(RegisterOpcodes(r, IndexOf(op)), IndexedValue(op, s))
  }

  /** Pass 2 takes both cases of the letter for the accumulator, pass 1 only the upper. */
  predicate ReadAsAccumulator(e: Expr) { e == Sym("A") || e == Sym("a") }

  function EncodeShift(h: ShiftOp, op: Operand, s: Symbols): Option<seq<byte>> {
    if op.NoOperand? || (op.Direct? && ReadAsAccumulator(op.e)) then Some([AccumulatorOpcode(h)])
    else EncodeDirect(ShiftOpcodes(h, IndexOf(op)), IndexedValue(op, s))
  }

  /** A target out of reach is an error. */
  function EncodeRelative(opcode: byte, target: Option<int>, after: int, wide: bool): Option<seq<byte>> {
    if target.None? then None
    else
      var d := target.value - after;
      if wide then if -0x8000 <= d <= 0x7FFF then Some([opcode] + B2(d)) else None
      else if -0x80 <= d <= 0x7F then Some([opcode] + B1(d)) else None
  }

  function EncodeJump(m: Mnemonic, op: Operand, s: Symbols): Option<seq<byte>> {
    var v := if op.NoOperand? || op.Banks? then None else Eval(s, op.e);
    if v.None? then None
    else
      match (m, op)
      case (JSR, Indirect(_)) => Some([0xFC] + B2(v.value))
      case (JSR, IndirectX(_)) => Some([0xFC] + B2(v.value))
      case (JSR, Direct(_, _)) => Some([0x20] + B2(v.value))
      case (JMP, Indirect(_)) => Some([0x6C] + B2(v.value))
      case (JMP, IndirectX(_)) => Some([0x7C] + B2(v.value))
      case (JMP, LongIndirect(_)) => Some([0xDC] + B2(v.value))
      case (JMP, Direct(_, wide)) =>
        Some(if wide || v.value > 0xFFFF then [0x5C] + B3(v.value) else [0x4C] + B2(v.value))
      case (JSL, Direct(_, _)) => Some([0x22] + B3(v.value))
      case (JSL, Indirect(_)) => Some([0x22] + B3(v.value))
      case (JML, Direct(_, _)) => Some([0x5C] + B3(v.value))
      case (JML, Indirect(_)) => Some([0x5C] + B3(v.value))
      case _ => None
  }

  function EncodeBlockMove(opcode: byte, op: Operand, s: Symbols): Option<seq<byte>> {
    if !op.Banks? || Eval(s, op.dst).None? || Eval(s, op.src).None? then None
    else Some([opcode] + B1(Eval(s, op.dst).value) + B1(Eval(s, op.src).value))
  }

  function EncodeOne(opcode: byte, v: Option<int>): Option<seq<byte>> {
    if v.None? then None else Some([opcode] + B1(v.value))
  }

  /** None when the line cannot be encoded. */
  function Encode(m: Mnemonic, op: Operand, pc: int, aw: Width, iw: Width, s: Symbols): Option<seq<byte>> {
    match m
    case Plain(p) => Some([PlainOpcode(p)])
    case Shift(h) => EncodeShift(h, op, s)
    case Branch(b) => EncodeRelative(BranchOpcode(b), Value(op, s), pc + 2, false)
    case BRL => EncodeRelative(0x82, Value(op, s), pc + 3, true)
    case Alu(a) => EncodeAlu(a, op, aw, s)
    case Register(r) => EncodeRegister(r, op, aw, iw, s)
    case REP => EncodeOne(0xC2, Hashed(op, s))
    case SEP => EncodeOne(0xE2, Hashed(op, s))
    case MVN => EncodeBlockMove(0x54, op, s)
    case MVP => EncodeBlockMove(0x44, op, s)
    case PEA => if Hashed(op, s).None? then None else Some([0xF4] + B2(Hashed(op, s).value))
    case WDM => None
    case Unknown => None
    case _ => EncodeJump(m, op, s)
  }

  // ---- When the two passes agree ----

  /** The operand's value in a table, where it has a single expression. */
  function OperandValue(op: Operand, s: Symbols): Option<int> {
    if op.NoOperand? || op.Banks? then None else Eval(s, op.e)
  }

  /** The encoder's choice for a mnemonic with direct-page and absolute forms only. */
  predicate FitsTwo(v1: Option<int>, v2: Option<int>) {
    ValueSize(v1) == if ValueSize(v2) == 2 then 2 else 3
  }

  predicate DirectAgrees(m: Mnemonic, op: Operand, v1: Option<int>, v2: Option<int>)
    requires op.Direct? || op.DirectX?
  {
    match m
    case Alu(_) => op.wide || ValueSize(v1) == ValueSize(v2)
    case Shift(_) => if op.Direct? && ReadAsAccumulator(op.e) then op.e == Sym("A") else !op.wide && FitsTwo(v1, v2)
    case Register(_) => !op.wide && FitsTwo(v1, v2)
    case JMP => !op.wide && ValueSize(v2) != 4
    case REP => !op.wide && ValueSize(v1) == 2
    case SEP => !op.wide && ValueSize(v1) == 2
    case PEA => !op.wide && ValueSize(v1) == 3
    case _ => true
  }

  /**
   Whether pass 1 gives an encodable instruction the length pass 2 emits, from the form of its
   operand, the operand's value when it was sized (v1) and its final value (v2).
   */
  predicate Agrees(m: Mnemonic, op: Operand, v1: Option<int>, v2: Option<int>) {
    if m.Plain? || m.Branch? || m.BRL? then true
    else
      match op
      case Direct(_, _) => DirectAgrees(m, op, v1, v2)
      case DirectX(_, _) => DirectAgrees(m, op, v1, v2)
      case DirectY(_) => m.Alu? || (ValueSize(v1) == 2 <==> ValueSize(v2) == 2)
      case Immediate(_) => !m.PEA?
      case LongIndirect(_) => !m.JMP?
      case Indirect(_) => if m.Register? || m.Shift? then ValueSize(v2) == 2 else !m.JSL? && !m.JML? && !m.PEA?
      case IndirectY(_) => (m.Register? || m.Shift?) ==> ValueSize(v2) == 2
      case _ => true
  }

  lemma AluAgreement(a: AluOp, op: Operand, aw: Width, iw: Width, s1: Symbols, s2: Symbols)
    requires EncodeAlu(a, op, aw, s2).Some?
    ensures |EncodeAlu(a, op, aw, s2).value| == OperandSize(Alu(a), op, aw, iw, s1)
            <==> Agrees(Alu(a), op, OperandValue(op, s1), OperandValue(op, s2))
  {
    hide Eval, AluBase;
  }

  lemma TwoFormAgreement(m: Mnemonic, op: Operand, opcodes: (Option<byte>, Option<byte>), aw: Width, iw: Width,
                         s1: Symbols, s2: Symbols)
    requires m.Register? || (m.Shift? && !(op.Direct? && ReadAsAccumulator(op.e)))
    requires EncodeDirect(opcodes, IndexedValue(op, s2)).Some?
    requires m.Shift? ==> opcodes == ShiftOpcodes(m.shift, IndexOf(op))
    requires m.Register? ==> opcodes == RegisterOpcodes(m.reg, IndexOf(op))
    ensures |EncodeDirect(opcodes, IndexedValue(op, s2)).value| == OperandSize(m, op, aw, iw, s1)
            <==> Agrees(m, op, OperandValue(op, s1), OperandValue(op, s2))
  {
    hide Eval, ShiftBase;
  }

  lemma RegisterAgreement(r: RegisterOp, op: Operand, aw: Width, iw: Width, s1: Symbols, s2: Symbols)
    requires EncodeRegister(r, op, aw, iw, s2).Some?
    ensures |EncodeRegister(r, op, aw, iw, s2).value| == OperandSize(Register(r), op, aw, iw, s1)
            <==> Agrees(Register(r), op, OperandValue(op, s1), OperandValue(op, s2))
  {
    hide Eval;
    if !op.Immediate? {
      TwoFormAgreement(Register(r), op, RegisterOpcodes(r, IndexOf(op)), aw, iw, s1, s2);
    }
  }

  lemma ShiftAgreement(h: ShiftOp, op: Operand, aw: Width, iw: Width, s1: Symbols, s2: Symbols)
    requires EncodeShift(h, op, s2).Some?
    ensures |EncodeShift(h, op, s2).value| == InstructionSize(Shift(h), op, aw, iw, s1)
            <==> Agrees(Shift(h), op, OperandValue(op, s1), OperandValue(op, s2))
  {
    hide Eval, AccumulatorOpcode;
    if !op.NoOperand? && !(op.Direct? && ReadAsAccumulator(op.e)) {
      TwoFormAgreement(Shift(h), op, ShiftOpcodes(h, IndexOf(op)), aw, iw, s1, s2);
    }
  }

  lemma JumpAgreement(m: Mnemonic, op: Operand, aw: Width, iw: Width, s1: Symbols, s2: Symbols)
    requires (m.JSR? || m.JSL? || m.JMP? || m.JML?) && EncodeJump(m, op, s2).Some?
    ensures |EncodeJump(m, op, s2).value| == OperandSize(m, op, aw, iw, s1)
            <==> Agrees(m, op, OperandValue(op, s1), OperandValue(op, s2))
  {
    hide Eval;
  }

  /** Exactly when the size of an encodable instruction is the length of its bytes. */
  lemma SizeAgreement(m: Mnemonic, op: Operand, pc: int, aw: Width, iw: Width, s1: Symbols, s2: Symbols)
    requires Encode(m, op, pc, aw, iw, s2).Some?
    ensures |Encode(m, op, pc, aw, iw, s2).value| == InstructionSize(m, op, aw, iw, s1)
            <==> Agrees(m, op, OperandValue(op, s1), OperandValue(op, s2))
  {
    hide Eval, PlainOpcode, BranchOpcode, EncodeAlu, EncodeRegister, EncodeShift, EncodeJump, OperandSize, Agrees;
    match m {
      case Alu(a) => AluAgreement(a, op, aw, iw, s1, s2);
      case Register(r) => RegisterAgreement(r, op, aw, iw, s1, s2);
      case Shift(h) => ShiftAgreement(h, op, aw, iw, s1, s2);
      case JSR => JumpAgreement(m, op, aw, iw, s1, s2);
      case JSL => JumpAgreement(m, op, aw, iw, s1, s2);
      case JMP => JumpAgreement(m, op, aw, iw, s1, s2);
      case JML => JumpAgreement(m, op, aw, iw, s1, s2);
      case _ => OtherAgreement(m, op, pc, aw, iw, s1, s2);
    }
  }

  lemma OtherAgreement(m: Mnemonic, op: Operand, pc: int, aw: Width, iw: Width, s1: Symbols, s2: Symbols)
    requires m.Plain? || m.Branch? || m.BRL? || m.REP? || m.SEP? || m.MVN? || m.MVP? || m.PEA?
    requires Encode(m, op, pc, aw, iw, s2).Some?
    ensures |Encode(m, op, pc, aw, iw, s2).value| == InstructionSize(m, op, aw, iw, s1)
            <==> Agrees(m, op, OperandValue(op, s1), OperandValue(op, s2))
  {
    hide Eval, PlainOpcode, BranchOpcode;
  }

  /** What a form with two lengths, or a one-byte pointer, asks of its operand's final value. */
  predicate TwoFormSupported(op: Operand, forward: bool, v2: Option<int>) {
    match op
    case Direct(_, wide) => !wide && ValueSize(v2) != (if forward then 2 else 4)
    case DirectX(_, wide) => !wide && ValueSize(v2) != (if forward then 2 else 4)
    case Indirect(_) => ValueSize(v2) == 2
    case IndirectY(_) => ValueSize(v2) == 2
    case _ => true
  }

  /**
   The forms the sizing table covers, by mnemonic. `forward`: the operand used a name defined further
   down; `v2` is its final value. Only the forms whose length depends on the value ask anything of it.
   */
  predicate Supported(m: Mnemonic, op: Operand, forward: bool, v2: Option<int>) {
    var plain := op.Direct? || op.DirectX?;
    if m.Plain? || m.Branch? || m.BRL? then true
    else if op.DirectY? then m.Alu? || !forward || ValueSize(v2) != 2
    else
      match m
      case Alu(_) => plain ==> op.wide || !forward || ValueSize(v2) == 3
      case Register(_) => TwoFormSupported(op, forward, v2)
      case Shift(_) =>
        if op.Direct? && ReadAsAccumulator(op.e) then op.e == Sym("A") else TwoFormSupported(op, forward, v2)
      case JMP => !op.LongIndirect? && (plain ==> !op.wide && ValueSize(v2) != 4)
      case JSL => !op.Indirect?
      case JML => !op.Indirect?
      case PEA => !op.Immediate? && !op.Indirect? && (plain ==> !op.wide && (forward || ValueSize(v2) == 3))
      case REP => plain ==> !op.wide && !forward && ValueSize(v2) == 2
      case SEP => plain ==> !op.wide && !forward && ValueSize(v2) == 2
      case _ => true
  }

  /** Of operands that keep the value they were sized with, exactly the supported forms are sized right. */
  lemma SupportedExactly(m: Mnemonic, op: Operand, v1: Option<int>, v2: Option<int>)
    requires v1.Some? ==> v1 == v2
    ensures Agrees(m, op, v1, v2) <==> Supported(m, op, v1.None?, v2)
  {
    hide ReadAsAccumulator;
  }

  /** The forms left out are sized against what they emit whatever their operand: no value repairs them. */
  lemma UnsupportedForms(pc: int, aw: Width, iw: Width, s1: Symbols, s2: Symbols, e: Expr, h: ShiftOp)
    requires Eval(s2, e).Some?
    ensures EncodedLength(PEA, Immediate(e), pc, aw, iw, s2) == InstructionSize(PEA, Immediate(e), aw, iw, s1) + 1
    ensures EncodedLength(JMP, LongIndirect(e), pc, aw, iw, s2) == InstructionSize(JMP, LongIndirect(e), aw, iw, s1) + 1
    ensures EncodedLength(JMP, Direct(e, true), pc, aw, iw, s2) == InstructionSize(JMP, Direct(e, true), aw, iw, s1) + 1
    ensures EncodedLength(Shift(h), Direct(Sym("a"), false), pc, aw, iw, s2)
            < InstructionSize(Shift(h), Direct(Sym("a"), false), aw, iw, s1)
  {
    hide Eval, AccumulatorOpcode;
  }

  function EncodedLength(m: Mnemonic, op: Operand, pc: int, aw: Width, iw: Width, s: Symbols): nat {
    var bytes := Encode(m, op, pc, aw, iw, s);
    if bytes.Some? then |bytes.value| else 0
  }

  // ---- The processor's own view of a length ----

  /** How many bytes the processor fetches for an opcode, from the low five bits and the register widths. */
  function FetchLength(opcode: byte, aw: Width, iw: Width): nat {
    var low := opcode % 0x20;
    if opcode == 0xA0 || opcode == 0xC0 || opcode == 0xE0 || opcode == 0xA2 then 1 + WidthSize(iw)
    else if low == 0x09 then 1 + WidthSize(aw)
    else if opcode == 0x40 || opcode == 0x60 then 1
    else if opcode == 0x22 || opcode == 0x5C then 4
    else if opcode == 0x20 || opcode == 0x62 || opcode == 0x82 then 3
    else if opcode == 0x44 || opcode == 0x54 || opcode == 0xF4 then 3
    else if low == 0x08 || low == 0x0A || low == 0x0B || low == 0x18 || low == 0x1A || low == 0x1B then 1
    else if low == 0x0F || low == 0x1F then 4
    else if low == 0x19 || low >= 0x1C || 0x0C <= low <= 0x0E then 3
    else 2
  }

  /** The fourteen addressing columns of the accumulator instructions. */
  predicate AluMode(mode: nat) {
    mode == 0x12 || (mode < 0x20 && mode % 2 == 1 && mode != 0x0B && mode != 0x13 && mode != 0x1B)
  }

  lemma AluColumn(a: AluOp, mode: nat, aw: Width, iw: Width)
    requires AluMode(mode)
    ensures FetchLength(AluBase(a) + mode, aw, iw)
            == if mode == 0x09 then 1 + WidthSize(aw)
               else if mode == 0x0F || mode == 0x1F then 4
               else if mode == 0x0D || mode == 0x19 || mode == 0x1D then 3
               else 2
  {
    hide AluBase, WidthSize;
    var b := AluBase(a);
    assert (b + mode) % 0x20 == mode;
  }

  lemma AluFetched(a: AluOp, op: Operand, aw: Width, iw: Width, s: Symbols)
    requires EncodeAlu(a, op, aw, s).Some?
    ensures var bytes := EncodeAlu(a, op, aw, s).value; |bytes| == FetchLength(bytes[0], aw, iw)
  {
    hide Eval, AluBase, FetchLength;
    AluColumn(a, EncodeAlu(a, op, aw, s).value[0] - AluBase(a), aw, iw);
  }

  /** A pair of direct-page and absolute opcodes is fetched as two and three bytes. */
  predicate FetchedAsPair(opcodes: (Option<byte>, Option<byte>), aw: Width, iw: Width) {
    && (opcodes.0.Some? ==> FetchLength(opcodes.0.value, aw, iw) == 2)
    && (opcodes.1.Some? ==> FetchLength(opcodes.1.value, aw, iw) == 3)
  }

  lemma RegisterPairs(r: RegisterOp, x: Index, aw: Width, iw: Width)
    ensures FetchedAsPair(RegisterOpcodes(r, x), aw, iw)
  {
    hide WidthSize;
  }

  lemma DirectColumns(h: ShiftOp, aw: Width, iw: Width)
    ensures FetchLength(ShiftBase(h), aw, iw) == 2 && FetchLength(ShiftBase(h) + 0x10, aw, iw) == 2
  {
    hide WidthSize;
  }

  lemma AbsoluteColumns(h: ShiftOp, aw: Width, iw: Width)
    ensures FetchLength(ShiftBase(h) + 0x08, aw, iw) == 3 && FetchLength(ShiftBase(h) + 0x18, aw, iw) == 3
  {
    hide WidthSize;
  }

  lemma ShiftPairs(h: ShiftOp, x: Index, aw: Width, iw: Width)
    ensures FetchedAsPair(ShiftOpcodes(h, x), aw, iw)
  {
    hide ShiftBase, FetchLength;
    DirectColumns(h, aw, iw);
    AbsoluteColumns(h, aw, iw);
  }

  lemma RegisterImmediates(r: RegisterOp, aw: Width, iw: Width)
    ensures var o := ImmediateOpcode(Register(r));
            o.Some? ==> FetchLength(o.value, aw, iw) == 1 + WidthSize(if r.BIT? then aw else iw)
  {
    hide WidthSize;
  }

  lemma RegisterFetched(r: RegisterOp, op: Operand, aw: Width, iw: Width, s: Symbols)
    requires EncodeRegister(r, op, aw, iw, s).Some?
    ensures var bytes := EncodeRegister(r, op, aw, iw, s).value; |bytes| == FetchLength(bytes[0], aw, iw)
  {
    hide Eval, RegisterOpcodes, FetchLength, ImmediateOpcode;
    RegisterPairs(r, IndexOf(op), aw, iw);
    RegisterImmediates(r, aw, iw);
  }

  lemma PlainFetched(p: PlainOp, aw: Width, iw: Width)
    ensures FetchLength(PlainOpcode(p), aw, iw) == 1
  {
    hide WidthSize;
  }

  lemma BranchFetched(b: BranchOp, aw: Width, iw: Width)
    ensures FetchLength(BranchOpcode(b), aw, iw) == 2
  {
  }

  lemma AccumulatorFetched(h: ShiftOp, aw: Width, iw: Width)
    ensures FetchLength(AccumulatorOpcode(h), aw, iw) == 1
  {
    hide WidthSize;
  }

  lemma ShiftFetched(h: ShiftOp, op: Operand, aw: Width, iw: Width, s: Symbols)
    requires EncodeShift(h, op, s).Some?
    ensures var bytes := EncodeShift(h, op, s).value; |bytes| == FetchLength(bytes[0], aw, iw)
  {
    hide Eval, ShiftOpcodes, AccumulatorOpcode, FetchLength;
    AccumulatorFetched(h, aw, iw);
    ShiftPairs(h, IndexOf(op), aw, iw);
  }

  /** Every instruction is emitted with exactly the bytes the processor will fetch for its opcode at these widths. */
  lemma EmittedAsFetched(m: Mnemonic, op: Operand, pc: int, aw: Width, iw: Width, s: Symbols)
    requires Encode(m, op, pc, aw, iw, s).Some?
    ensures var bytes := Encode(m, op, pc, aw, iw, s).value; bytes != [] && |bytes| == FetchLength(bytes[0], aw, iw)
  {
    hide Eval, EncodeAlu, EncodeRegister, EncodeShift, BranchOpcode, PlainOpcode;
    match m {
      case Alu(a) => AluFetched(a, op, aw, iw, s);
      case Register(r) => RegisterFetched(r, op, aw, iw, s);
      case Shift(h) => ShiftFetched(h, op, aw, iw, s);
      case Plain(p) => PlainFetched(p, aw, iw);
      case Branch(b) => BranchFetched(b, aw, iw);
      case _ =>
    }
  }
}
