/** When pass 2 emits at the addresses pass 1 computed, what the label guard proves, and where every byte lands. */
module Agreement {
  import opened Timing
  import opened Expression
  import opened Isa
  import opened Assemble

  // ---- The sizing states of a program that pass 1 accepts ----

  predicate Sized(lines: seq<Line>, init: Symbols) { Pass1(lines, init, |lines|).Ok? }

  lemma {:induction false} PrefixSized(lines: seq<Line>, init: Symbols, i: nat, j: nat)
    requires i <= j <= |lines| && Pass1(lines, init, j).Ok?
    ensures Pass1(lines, init, i).Ok?
    decreases j
  {
    if i < j { PrefixSized(lines, init, i, j - 1); }
  }

  /** The state before line `i`. */
  function At(lines: seq<Line>, init: Symbols, i: nat): Sizing
    requires Sized(lines, init) && i <= |lines|
  {
    PrefixSized(lines, init, i, |lines|);
    Pass1(lines, init, i).value
  }

  lemma NextAt(lines: seq<Line>, init: Symbols, i: nat)
    requires Sized(lines, init) && i < |lines|
    ensures SizeLine(At(lines, init, i), lines[i]) == Some(At(lines, init, i + 1))
  {
    PrefixSized(lines, init, i + 1, |lines|);
  }

  /** The table line `i` is sized against: everything before it, and its own label. */
  function TableAt(lines: seq<Line>, init: Symbols, i: nat): Symbols
    requires Sized(lines, init) && i < |lines|
  {
    DefineLabel(At(lines, init, i), lines[i]).syms
  }

  function Final(lines: seq<Line>, init: Symbols): Symbols
    requires Sized(lines, init)
  {
    FinalSymbols(lines, At(lines, init, |lines|))
  }

  function Origin(lines: seq<Line>, init: Symbols): u32
    requires Sized(lines, init)
  {
    Base(At(lines, init, |lines|))
  }

  lemma FirstStays(p: Sizing, l: Line)
    requires SizeLine(p, l).Some? && p.first.Some?
    ensures SizeLine(p, l).value.first == p.first
  {
  }

  lemma {:induction false} FirstIsOrigin(lines: seq<Line>, init: Symbols, i: nat)
    requires Sized(lines, init) && i <= |lines| && At(lines, init, i).first.Some?
    ensures At(lines, init, i).first == Some(Origin(lines, init))
    decreases |lines| - i
  {
    if i < |lines| {
      NextAt(lines, init, i);
      FirstStays(At(lines, init, i), lines[i]);
      FirstIsOrigin(lines, init, i + 1);
    }
  }

  // ---- Agreement line by line ----

  /** Whether a statement sized against `s` takes the same space, or sets the same origin, against `final`. */
  predicate StmtAgrees(st: Stmt, s: Symbols, final: Symbols) {
    match st
    case Instruction(m, op) => Agrees(m, op, OperandValue(op, s), OperandValue(op, final))
    case Org(e) => Eval(s, e).Some? && Eval(final, e).Some? ==> Eval(s, e).value % U32 == Eval(final, e).value % U32
    case Fill(c, _) => Eval(s, c).Some? && Eval(final, c).Some? ==>
      Count(Eval(s, c).value) == Count(Eval(final, c).value)
    case _ => true
  }

  lemma DataAgreement(st: Stmt, pc: u32, aw: Width, iw: Width, s: Symbols, final: Symbols)
    requires IsData(st) && DataSize(st, aw, iw, s).Some? && DataBytes(st, pc, aw, iw, final).Some?
    ensures |DataBytes(st, pc, aw, iw, final).value| == DataSize(st, aw, iw, s).value <==> StmtAgrees(st, s, final)
  {
    hide Encode, InstructionSize, Agrees, OperandValue;
    if st.Instruction? { SizeAgreement(st.m, st.op, pc, aw, iw, s, final); }
  }

  /** Pass 2 is where pass 1 was: before the first origin or byte it waits at the image base. */
  predicate InPlace(p: Sizing, q: Emission, base: u32) {
    q.aw == p.aw && q.iw == p.iw && if p.first.Some? then q.pc == p.pc else p.pc == 0 && q.pc == base
  }

  /** The same up to the 32-bit wrap of an address; only a fill can differ by as much as that. */
  predicate StmtLevel(st: Stmt, s: Symbols, final: Symbols) {
    if st.Fill? then
      Eval(s, st.count).Some? && Eval(final, st.count).Some? ==>
        Count(Eval(s, st.count).value) % U32 == Count(Eval(final, st.count).value) % U32
    else StmtAgrees(st, s, final)
  }

  lemma EncodedShort(m: Mnemonic, op: Operand, pc: int, aw: Width, iw: Width, s: Symbols)
    ensures Encode(m, op, pc, aw, iw, s).Some? ==> |Encode(m, op, pc, aw, iw, s).value| <= 4
  {
    hide Encode;
    if Encode(m, op, pc, aw, iw, s).Some? { EmittedAsFetched(m, op, pc, aw, iw, s); }
  }

  lemma SizedShort(m: Mnemonic, op: Operand, aw: Width, iw: Width, s: Symbols)
    ensures InstructionSize(m, op, aw, iw, s) <= 4
  {
    hide Eval;
  }

  lemma WrapOnce(pc: u32, n: nat)
    ensures (pc + n) % U32 == if pc + n % U32 < U32 then pc + n % U32 else pc + n % U32 - U32
  {
    assert n == n / U32 * U32 + n % U32;
  }

  lemma SameDistance(pc: u32, m: nat, n: nat)
    ensures (pc + m) % U32 == (pc + n) % U32 <==> m % U32 == n % U32
  {
    WrapOnce(pc, m);
    WrapOnce(pc, n);
    SameShift(pc, m % U32, n % U32);
  }

  lemma SameShift(pc: u32, m: u32, n: u32)
    ensures (if pc + m < U32 then pc + m else pc + m - U32) == (if pc + n < U32 then pc + n else pc + n - U32)
            <==> m == n
  {
  }

  lemma DataLevel(st: Stmt, pc: u32, aw: Width, iw: Width, s: Symbols, final: Symbols)
    requires IsData(st) && DataSize(st, aw, iw, s).Some? && DataBytes(st, pc, aw, iw, final).Some?
    ensures |DataBytes(st, pc, aw, iw, final).value| % U32 == DataSize(st, aw, iw, s).value % U32
            <==> StmtLevel(st, s, final)
  {
    hide Encode, InstructionSize, Agrees, OperandValue, Eval;
    if st.Instruction? {
      SizeAgreement(st.m, st.op, pc, aw, iw, s, final);
      EncodedShort(st.m, st.op, pc, aw, iw, final);
      SizedShort(st.m, st.op, aw, iw, s);
    }
  }

  /** From a place where the passes meet, they meet again after a statement exactly if it is level. */
  lemma StepLevel(p: Sizing, q: Emission, st: Stmt, final: Symbols, base: u32)
    requires InPlace(p, q, base) && SizeStmt(p, st).Some? && EmitStmt(q, st, final, base).Some?
    requires SizeStmt(p, st).value.first.Some? ==> SizeStmt(p, st).value.first.value == base
    ensures InPlace(SizeStmt(p, st).value, EmitStmt(q, st, final, base).value, base) <==> StmtLevel(st, p.syms, final)
  {
    hide DataSize, DataBytes, Store, Eval, Agrees, OperandValue, Count;
    if IsData(st) {
      DataLevel(st, q.pc, q.aw, q.iw, p.syms, final);
      SameDistance(q.pc, |DataBytes(st, q.pc, q.aw, q.iw, final).value|, DataSize(st, p.aw, p.iw, p.syms).value);
    }
  }

  predicate AllAgree(lines: seq<Line>, init: Symbols)
    requires Sized(lines, init)
  {
    forall i :: 0 <= i < |lines| ==> StmtAgrees(lines[i].stmt, TableAt(lines, init, i), Final(lines, init))
  }

  function Pass2At(lines: seq<Line>, init: Symbols, size: nat, i: nat): Result<Emission>
    requires Sized(lines, init) && i <= |lines|
  {
    Pass2(lines, Final(lines, init), Origin(lines, init), size, i)
  }

  predicate AllLevel(lines: seq<Line>, init: Symbols)
    requires Sized(lines, init)
  {
    forall i :: 0 <= i < |lines| ==> StmtLevel(lines[i].stmt, TableAt(lines, init, i), Final(lines, init))
  }

  /** Pass 2 reaches line `i`, at the address pass 1 had there. */
  predicate Meets(lines: seq<Line>, init: Symbols, size: nat, i: nat)
    requires Sized(lines, init) && i <= |lines|
  {
    && Pass2At(lines, init, size, i).Ok?
    && InPlace(At(lines, init, i), Pass2At(lines, init, size, i).value, Origin(lines, init))
  }

  lemma StartMeets(lines: seq<Line>, init: Symbols, size: nat)
    requires Sized(lines, init)
    ensures Meets(lines, init, size, 0)
  {
  }

  lemma LineMeets(lines: seq<Line>, init: Symbols, size: nat, i: nat)
    requires Sized(lines, init) && i < |lines| && Pass2At(lines, init, size, i + 1).Ok?
    requires Meets(lines, init, size, i)
    ensures Meets(lines, init, size, i + 1)
            <==> StmtLevel(lines[i].stmt, TableAt(lines, init, i), Final(lines, init))
  {
    hide StmtLevel, SizeStmt, EmitStmt, At, Pass1, Constants;
    NextAt(lines, init, i);
    if At(lines, init, i + 1).first.Some? { FirstIsOrigin(lines, init, i + 1); }
    StepLevel(DefineLabel(At(lines, init, i), lines[i]), Pass2At(lines, init, size, i).value, lines[i].stmt,
              Final(lines, init), Origin(lines, init));
  }

  lemma {:induction false} LevelMeets(lines: seq<Line>, init: Symbols, size: nat, i: nat)
    requires Sized(lines, init) && AllLevel(lines, init) && i <= |lines|
    ensures Pass2At(lines, init, size, i).Ok? ==> Meets(lines, init, size, i)
    decreases i
  {
    hide StmtLevel, EmitLine, InPlace, Final, Origin, At;
    if i == 0 {
      StartMeets(lines, init, size);
    } else if Pass2At(lines, init, size, i).Ok? {
      LevelMeets(lines, init, size, i - 1);
      LineMeets(lines, init, size, i - 1);
    }
  }

  lemma PassesInPlace(lines: seq<Line>, init: Symbols, size: nat, i: nat)
    requires Sized(lines, init) && AllAgree(lines, init) && i <= |lines|
    ensures Pass2At(lines, init, size, i).Ok? ==>
              InPlace(At(lines, init, i), Pass2At(lines, init, size, i).value, Origin(lines, init))
  {
    hide InPlace, Final, Origin, At, Pass2, StmtAgrees, StmtLevel;
    forall k | 0 <= k < |lines| ensures StmtLevel(lines[k].stmt, TableAt(lines, init, k), Final(lines, init)) {
      AgreesIsLevel(lines[k].stmt, TableAt(lines, init, k), Final(lines, init));
    }
    LevelMeets(lines, init, size, i);
  }

  lemma AgreesIsLevel(st: Stmt, s: Symbols, final: Symbols)
    ensures StmtAgrees(st, s, final) ==> StmtLevel(st, s, final)
    ensures !st.Fill? ==> (StmtLevel(st, s, final) <==> StmtAgrees(st, s, final))
  {
    hide Eval;
  }

  lemma {:induction false} PrefixEmitted(lines: seq<Line>, init: Symbols, size: nat, i: nat, j: nat)
    requires Sized(lines, init) && i <= j <= |lines| && Pass2At(lines, init, size, j).Ok?
    ensures Pass2At(lines, init, size, i).Ok?
    decreases j
  {
    hide EmitLine, Constants, Pass1;
    if i < j { PrefixEmitted(lines, init, size, i, j - 1); }
  }

  /**
   Of any program that assembles: pass 2 is at every line where pass 1 was if and only if every line
   takes the same space in both passes, up to the 32-bit wrap.
   */
  lemma MeetsExactly(lines: seq<Line>, init: Symbols, size: nat)
    requires Sized(lines, init) && Pass2At(lines, init, size, |lines|).Ok?
    ensures AllLevel(lines, init) <==> forall i :: 0 <= i <= |lines| ==> Meets(lines, init, size, i)
  {
    hide StmtLevel, InPlace, Final, Origin, At, Pass2, Meets;
    forall i | 0 <= i <= |lines| ensures Pass2At(lines, init, size, i).Ok? {
      PrefixEmitted(lines, init, size, i, |lines|);
    }
    if AllLevel(lines, init) {
      forall i | 0 <= i <= |lines| ensures Meets(lines, init, size, i) {
        LevelMeets(lines, init, size, i);
      }
    }
    if forall i :: 0 <= i <= |lines| ==> Meets(lines, init, size, i) {
      forall i | 0 <= i < |lines| ensures StmtLevel(lines[i].stmt, TableAt(lines, init, i), Final(lines, init)) {
        assert Meets(lines, init, size, i) && Meets(lines, init, size, i + 1);
        LineMeets(lines, init, size, i);
      }
    }
  }

  /** One instruction that is sized wrong moves everything after it, and only a wrong size does. */
  lemma InstructionDrift(p: Sizing, q: Emission, m: Mnemonic, op: Operand, final: Symbols, base: u32)
    requires p.first.Some? && InPlace(p, q, base)
    requires EmitStmt(q, Instruction(m, op), final, base).Some?
    ensures EmitStmt(q, Instruction(m, op), final, base).value.pc == SizeStmt(p, Instruction(m, op)).value.pc
            <==> Agrees(m, op, OperandValue(op, p.syms), OperandValue(op, final))
  {
    hide Encode, InstructionSize, Agrees, Store, OperandValue;
    SizeAgreement(m, op, q.pc, q.aw, q.iw, p.syms, final);
    EncodedShort(m, op, q.pc, q.aw, q.iw, final);
    SizedShort(m, op, q.aw, q.iw, p.syms);
    SameDistance(p.pc, |Encode(m, op, q.pc, q.aw, q.iw, final).value|, InstructionSize(m, op, q.aw, q.iw, p.syms));
  }

  // ---- The guard ----

  /** Whatever the sizes, a program that assembles has every label where pass 2 emits it. */
  lemma {:induction false} GuardSound(lines: seq<Line>, init: Symbols, size: nat, i: nat, n: nat)
    requires Sized(lines, init) && i < n <= |lines| && Pass2At(lines, init, size, n).Ok? && lines[i].lbl.Some?
    ensures Pass2At(lines, init, size, i).Ok?
    ensures lines[i].lbl.value in Final(lines, init)
    ensures Final(lines, init)[lines[i].lbl.value] == Pass2At(lines, init, size, i).value.pc
    decreases n
  {
    hide EmitStmt, Constants, Pass1;
    if i < n - 1 { GuardSound(lines, init, size, i, n - 1); }
  }

  /** Every label's final value is the address pass 1 gave it, and none precedes an origin other than 0. */
  predicate LabelsKept(lines: seq<Line>, init: Symbols)
    requires Sized(lines, init)
  {
    forall i :: 0 <= i < |lines| && lines[i].lbl.Some? ==>
      && lines[i].lbl.value in Final(lines, init)
      && Final(lines, init)[lines[i].lbl.value] == At(lines, init, i).pc
      && (At(lines, init, i).first.Some? || Origin(lines, init) == 0)
  }

  lemma {:induction false} GuardSilent(lines: seq<Line>, init: Symbols, size: nat, i: nat)
    requires Sized(lines, init) && AllAgree(lines, init) && LabelsKept(lines, init) && i <= |lines|
    ensures Pass2At(lines, init, size, i).Err? ==> Pass2At(lines, init, size, i).error.BadLine?
    decreases i
  {
    hide EmitStmt, Constants, Pass1, At;
    if i > 0 {
      GuardSilent(lines, init, size, i - 1);
      PassesInPlace(lines, init, size, i - 1);
    }
  }

  // ---- Programs whose constants look backwards ----

  predicate Fresh(s: Symbols, l: Line) {
    && (l.lbl.Some? ==> l.lbl.value !in s)
    && (l.stmt.Assign? ==> l.stmt.name !in s && l.lbl != Some(l.stmt.name))
  }

  /** No name is defined twice. */
  predicate DistinctNames(lines: seq<Line>, init: Symbols)
    requires Sized(lines, init)
  {
    forall i :: 0 <= i < |lines| ==> Fresh(At(lines, init, i).syms, lines[i])
  }

  /** No constant uses a name defined after it. */
  predicate BackwardConstants(lines: seq<Line>, init: Symbols)
    requires Sized(lines, init)
  {
    forall i :: 0 <= i < |lines| && lines[i].stmt.Assign? ==> Names(lines[i].stmt.e) <= TableAt(lines, init, i).Keys
  }

  lemma LineGrows(p: Sizing, l: Line)
    requires Fresh(p.syms, l) && SizeLine(p, l).Some?
    ensures Extends(p.syms, DefineLabel(p, l).syms) && Extends(DefineLabel(p, l).syms, SizeLine(p, l).value.syms)
  {
    hide DataSize, Eval;
  }

  lemma {:induction false} TablesGrow(lines: seq<Line>, init: Symbols, i: nat, j: nat)
    requires Sized(lines, init) && DistinctNames(lines, init) && i <= j <= |lines|
    ensures Extends(At(lines, init, i).syms, At(lines, init, j).syms)
    decreases j
  {
    hide SizeLine, At, Fresh;
    if i < j {
      TablesGrow(lines, init, i, j - 1);
      NextAt(lines, init, j - 1);
      LineGrows(At(lines, init, j - 1), lines[j - 1]);
    }
  }

  /** What a line was sized against is in the table at the end, unchanged. */
  lemma TableKept(lines: seq<Line>, init: Symbols, i: nat)
    requires Sized(lines, init) && DistinctNames(lines, init) && i < |lines|
    ensures Extends(TableAt(lines, init, i), At(lines, init, |lines|).syms)
  {
    hide SizeLine, At, Fresh;
    NextAt(lines, init, i);
    LineGrows(At(lines, init, i), lines[i]);
    TablesGrow(lines, init, i + 1, |lines|);
  }

  lemma RedefineStable(lines: seq<Line>, init: Symbols, i: nat)
    requires Sized(lines, init) && DistinctNames(lines, init) && BackwardConstants(lines, init) && i < |lines|
    ensures Redefine(At(lines, init, |lines|).syms, lines[i]) == At(lines, init, |lines|).syms
  {
    hide At, Eval, Names;
    if lines[i].stmt.Assign? {
      TableKept(lines, init, i);
      EvalMonotone(TableAt(lines, init, i), At(lines, init, |lines|).syms, lines[i].stmt.e);
      NextAt(lines, init, i);
      TablesGrow(lines, init, i + 1, |lines|);
    }
  }

  /** The second evaluation of the constants changes nothing. */
  lemma {:induction false} ConstantsStable(lines: seq<Line>, init: Symbols, i: nat)
    requires Sized(lines, init) && DistinctNames(lines, init) && BackwardConstants(lines, init) && i <= |lines|
    ensures Constants(lines, At(lines, init, |lines|).syms, i) == At(lines, init, |lines|).syms
    decreases i
  {
    hide At, Redefine, DistinctNames, BackwardConstants;
    if i > 0 {
      ConstantsStable(lines, init, i - 1);
      RedefineStable(lines, init, i - 1);
    }
  }

  /** A supported form, given what the operand was when it was sized and what it is in the end. */
  predicate StmtSupported(st: Stmt, s: Symbols, final: Symbols) {
    st.Instruction? ==> Supported(st.m, st.op, OperandValue(st.op, s).None?, OperandValue(st.op, final))
  }

  predicate AllSupported(lines: seq<Line>, init: Symbols)
    requires Sized(lines, init)
  {
    forall i :: 0 <= i < |lines| ==>
      StmtSupported(lines[i].stmt, TableAt(lines, init, i), At(lines, init, |lines|).syms)
  }

  /** Labels start after the origin, unless the origin is 0. */
  predicate OriginFirst(lines: seq<Line>, init: Symbols)
    requires Sized(lines, init)
  {
    forall i :: 0 <= i < |lines| && lines[i].lbl.Some? ==> At(lines, init, i).first.Some? || Origin(lines, init) == 0
  }

  /** As the table only grows, a line agrees with itself exactly if it is supported. */
  lemma SupportedLineAgrees(st: Stmt, s: Symbols, final: Symbols)
    requires Extends(s, final)
    ensures StmtAgrees(st, s, final) <==> StmtSupported(st, s, final)
  {
    hide Eval, Agrees, Supported, Extends;
    match st {
      case Instruction(m, op) =>
        if !op.NoOperand? && !op.Banks? { EvalMonotone(s, final, op.e); }
        SupportedExactly(m, op, OperandValue(op, s), OperandValue(op, final));
      case Org(e) => EvalMonotone(s, final, e);
      case Fill(c, _) => EvalMonotone(s, final, c);
      case _ =>
    }
  }

  lemma LabelKept(lines: seq<Line>, init: Symbols, i: nat)
    requires Sized(lines, init) && DistinctNames(lines, init) && i < |lines| && lines[i].lbl.Some?
    ensures var t := At(lines, init, |lines|).syms;
            lines[i].lbl.value in t && t[lines[i].lbl.value] == At(lines, init, i).pc
  {
    hide At, Fresh;
    TableKept(lines, init, i);
  }

  /** Distinct names, backward constants, and labels after the origin. */
  predicate Structured(lines: seq<Line>, init: Symbols)
    requires Sized(lines, init)
  {
    DistinctNames(lines, init) && BackwardConstants(lines, init) && OriginFirst(lines, init)
  }

  predicate WellFormed(lines: seq<Line>, init: Symbols)
    requires Sized(lines, init)
  {
    Structured(lines, init) && AllSupported(lines, init)
  }

  /** In a structured program the labels keep their addresses, and the supported forms are those that agree. */
  lemma WellFormedAgrees(lines: seq<Line>, init: Symbols)
    requires Sized(lines, init) && Structured(lines, init)
    ensures AllAgree(lines, init) <==> WellFormed(lines, init)
    ensures LabelsKept(lines, init) && Final(lines, init) == At(lines, init, |lines|).syms
  {
    hide At, StmtAgrees, StmtSupported, Origin, Fresh, Constants, BackwardConstants;
    ConstantsStable(lines, init, |lines|);
    forall i | 0 <= i < |lines|
      ensures StmtAgrees(lines[i].stmt, TableAt(lines, init, i), Final(lines, init))
              <==> StmtSupported(lines[i].stmt, TableAt(lines, init, i), At(lines, init, |lines|).syms)
    {
      TableKept(lines, init, i);
      SupportedLineAgrees(lines[i].stmt, TableAt(lines, init, i), Final(lines, init));
    }
    forall i | 0 <= i < |lines| && lines[i].lbl.Some?
      ensures lines[i].lbl.value in Final(lines, init)
      ensures Final(lines, init)[lines[i].lbl.value] == At(lines, init, i).pc
    {
      LabelKept(lines, init, i);
    }
  }

  /**
   Two-pass agreement: in a structured program of supported forms, pass 2 is at every line where pass 1
   was, and the label guard never fires.
   */
  lemma TwoPassAgreement(lines: seq<Line>, init: Symbols, size: nat, i: nat)
    requires Sized(lines, init) && WellFormed(lines, init) && i <= |lines|
    ensures Pass2At(lines, init, size, i).Ok? ==>
              InPlace(At(lines, init, i), Pass2At(lines, init, size, i).value, Origin(lines, init))
    ensures Pass2At(lines, init, size, i).Err? ==> Pass2At(lines, init, size, i).error.BadLine?
  {
    WellFormedAgrees(lines, init);
    PassesInPlace(lines, init, size, i);
    GuardSilent(lines, init, size, i);
  }

  /**
   Exactly when the passes agree: of a structured program that assembles, pass 2 is at every line where
   pass 1 was if and only if every instruction is of a supported form.
   */
  lemma TwoPassExactly(lines: seq<Line>, init: Symbols, size: nat)
    requires Sized(lines, init) && Structured(lines, init) && Pass2At(lines, init, size, |lines|).Ok?
    ensures WellFormed(lines, init) <==> forall i :: 0 <= i <= |lines| ==> Meets(lines, init, size, i)
  {
    hide At, StmtAgrees, StmtLevel, Origin, Constants, Structured, Pass2, WellFormed, Meets;
    WellFormedAgrees(lines, init);
    MeetsExactly(lines, init, size);
    forall i | 0 <= i < |lines|
      ensures StmtLevel(lines[i].stmt, TableAt(lines, init, i), Final(lines, init))
              <==> StmtAgrees(lines[i].stmt, TableAt(lines, init, i), Final(lines, init))
    {
      AgreesIsLevel(lines[i].stmt, TableAt(lines, init, i), Final(lines, init));
      if lines[i].stmt.Fill? { FillAgrees(lines, init, i); }
    }
  }

  lemma FillAgrees(lines: seq<Line>, init: Symbols, i: nat)
    requires Sized(lines, init) && Structured(lines, init) && i < |lines| && lines[i].stmt.Fill?
    ensures StmtAgrees(lines[i].stmt, TableAt(lines, init, i), Final(lines, init))
  {
    hide At, StmtAgrees, Origin, Constants, BackwardConstants, DistinctNames;
    WellFormedAgrees(lines, init);
    TableKept(lines, init, i);
    SupportedLineAgrees(lines[i].stmt, TableAt(lines, init, i), Final(lines, init));
  }
}
